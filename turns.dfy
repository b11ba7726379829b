/** The turn and round loops of monopoly.py. The dice are not modelled: every
    turn is handed its outcome (the roll's sum, whether it was a double, the
    running double count) and the coin `visit_property` flips, as a `Draw`. */
module Turns {
  import opened Players
  import opened Games

  /** What one turn reads from the dice and the coin. */
  datatype Draw = Draw(rollSum: int, double: bool, doubleCounter: int, coin: int)

  /** A roll that moves at most one full lap, and a coin that shows 0 or 1. */
  predicate Plausible(d: Draw)
  {
    0 <= d.rollSum <= BoardSize && 0 <= d.coin <= 1
  }

  /** How a turn goes before any space is resolved. */
  datatype Course = Skipped | SentToJail | StayedInJail | Landed(position: int)

  /** The player's state once a jailed player has tried to leave jail. */
  function Freed(s: PlayerState, d: Draw): PlayerState
  {
    if s.jailTurns > 0 then JailChoice(s, d.double) else s
  }

  /** The player's state after the move, for a turn that reaches it. */
  function Arrived(s: PlayerState, d: Draw): PlayerState
  {
    Moved(Freed(s, d), d.rollSum)
  }

  function CourseOf(s: PlayerState, d: Draw): Course
  {
    if s.bankrupt then Skipped
    else if d.doubleCounter == 3 then SentToJail
    else if s.jailTurns > 0 && StaysInJail(s, d.double) then StayedInJail
    else Landed(Arrived(s, d).position)
  }

  /** A player who leaves jail moves in the same turn, from a state out of jail
      and with cash no lower than zero when it was not; a player who stays does
      not move. Moving from the board by a plausible roll lands on the board. */
  lemma CourseFacts(s: PlayerState, d: Draw)
    requires 0 <= s.position < BoardSize && 0 <= s.jailTurns && Plausible(d)
    ensures CourseOf(s, d).Landed? <==> !s.bankrupt && d.doubleCounter != 3 && !(s.jailTurns > 0 && StaysInJail(s, d.double))
    ensures CourseOf(s, d).Landed? ==>
      && 0 <= CourseOf(s, d).position < BoardSize
      && Freed(s, d).jailTurns == 0
      && (0 <= s.cash ==> 0 <= Freed(s, d).cash)
  {
  }

  /** Everything a turn can change, as one value: the state of the player in
      every seat, the state of every board property and the bank's cash. */
  datatype World = World(states: seq<PlayerState>, facts: map<Property, PropertyState>, bank: int)

  /** `w` with the player in seat `i` in state `s`. */
  function WithSeat(w: World, i: int, s: PlayerState): World
    requires 0 <= i < |w.states|
  {
    w.(states := w.states[i := s])
  }

  /** `w` with `amount` added to the cash of the player in seat `j`. */
  function Credit(w: World, j: int, amount: int): World
  {
    if 0 <= j < |w.states| then WithSeat(w, j, w.states[j].(cash := w.states[j].cash + amount)) else w
  }

  /** `visit_property` on values: the player in `seat`, in state `s`, visits
      `pr`, whose state is `prior`. `ps` are the players by seat; a player's
      seat is its id less one. */
  function VisitStep(w: World, ps: seq<Player>, seat: int, s: PlayerState, pr: Property, prior: PropertyState, coin: int): World
    requires 0 <= seat < |w.states| && seat < |ps|
  {
    var owner := prior.owner;
    match Decide(owner != null, prior.mortgage, s.cash, prior.quotedRent, pr.price, coin)
    case PayRent =>
      if owner != null && s.cash >= prior.rentNow && owner != ps[seat] then
        Credit(WithSeat(w, seat, s.(cash := s.cash - prior.rentNow)), owner.id - 1, prior.rentNow)
      else WithSeat(w, seat, s)
    case Bankruptcy => WithSeat(w, seat, s.(bankrupt := true))
    case Purchase => WithSeat(w, seat, Bought(s, pr)).(facts := w.facts[pr := prior.(owner := ps[seat])])
    case Decline => WithSeat(w, seat, s)
    case Ignore => WithSeat(w, seat, s)
  }

  /** The cash the seats hold together. */
  function SeatCash(states: seq<PlayerState>): int
    decreases |states|
  {
    if states == [] then 0 else SeatCash(states[..|states| - 1]) + states[|states| - 1].cash
  }

  /** The cash in the game: the bank's and the seats'. */
  function CashTotal(w: World): int
  {
    w.bank + SeatCash(w.states)
  }

  /** Replacing one seat changes the seats' cash by the difference of that seat's cash. */
  lemma {:induction false} SeatCashUpdate(states: seq<PlayerState>, i: int, x: PlayerState)
    requires 0 <= i < |states|
    ensures SeatCash(states[i := x]) == SeatCash(states) - states[i].cash + x.cash
    decreases |states|
  {
    var n := |states|;
    if i == n - 1 {
      assert states[i := x][..n - 1] == states[..n - 1];
    } else {
      assert states[i := x][..n - 1] == states[..n - 1][i := x];
      SeatCashUpdate(states[..n - 1], i, x);
    }
  }

  /** Cash in a property visit, against the world in which the player has
      arrived: rent moves from the payer to the owner and a bankruptcy moves
      nothing, so the total is kept, but a purchase debits the price and
      credits no one, so the total drops by exactly the price. */
  lemma VisitCash(w: World, ps: seq<Player>, seat: int, s: PlayerState, pr: Property, prior: PropertyState, coin: int)
    requires 0 <= seat < |w.states| && seat < |ps|
    requires prior.owner != null ==> 0 <= prior.owner.id - 1 < |w.states|
    ensures
      var arrived := CashTotal(WithSeat(w, seat, s));
      CashTotal(VisitStep(w, ps, seat, s, pr, prior, coin))
        == if Decide(prior.owner != null, prior.mortgage, s.cash, prior.quotedRent, pr.price, coin) == Purchase
           then arrived - pr.price else arrived
  {
    match Decide(prior.owner != null, prior.mortgage, s.cash, prior.quotedRent, pr.price, coin)
    case PayRent =>
      if prior.owner != null && s.cash >= prior.rentNow && prior.owner != ps[seat] {
        RentCash(w, seat, s, prior.owner.id - 1, prior.rentNow);
      }
    case Bankruptcy =>
      ReseatCash(w, seat, s, s.(bankrupt := true));
    case Purchase =>
      ReseatCash(w, seat, s, Bought(s, pr));
      BoughtFacts(s, pr);
    case Decline =>
    case Ignore =>
  }

  /** Two worlds that differ in one seat differ in their cash by that seat's. */
  lemma ReseatCash(w: World, seat: int, s: PlayerState, t: PlayerState)
    requires 0 <= seat < |w.states|
    ensures CashTotal(WithSeat(w, seat, t)) == CashTotal(WithSeat(w, seat, s)) - s.cash + t.cash
  {
    SeatCashUpdate(w.states, seat, s);
    SeatCashUpdate(w.states, seat, t);
  }

  /** A rent paid from one seat to another keeps the cash in the game. */
  lemma RentCash(w: World, seat: int, s: PlayerState, o: int, rent: int)
    requires 0 <= seat < |w.states| && 0 <= o < |w.states|
    ensures CashTotal(Credit(WithSeat(w, seat, s.(cash := s.cash - rent)), o, rent)) == CashTotal(WithSeat(w, seat, s))
  {
    var paid := WithSeat(w, seat, s.(cash := s.cash - rent));
    ReseatCash(w, seat, s, s.(cash := s.cash - rent));
    SeatCashUpdate(paid.states, o, paid.states[o].(cash := paid.states[o].cash + rent));
  }

  /** The space dispatch on values, for the player in `seat` arriving in state `s`. */
  function Land(w: World, ps: seq<Player>, board: seq<Space>, seat: int, s: PlayerState, coin: int): World
    requires 0 <= seat < |w.states| && seat < |ps|
  {
    if !(0 <= s.position < |board|) then WithSeat(w, seat, s)
    else match board[s.position]
      case TaxSpace(tax) =>
        if s.cash >= tax then WithSeat(w, seat, s.(cash := s.cash - tax)).(bank := w.bank + tax)
        else WithSeat(w, seat, s)
      case PlainSpace => WithSeat(w, seat, s)
      case PropertySpace(pr) =>
        if pr in w.facts then VisitStep(w, ps, seat, s, pr, w.facts[pr], coin) else WithSeat(w, seat, s)
  }

  /** One turn of the player in `seat` with draw `d`, on values. */
  function TurnStep(w: World, ps: seq<Player>, board: seq<Space>, seat: int, d: Draw): World
  {
    if !(0 <= seat < |w.states| && seat < |ps|) then w
    else
      var s := w.states[seat];
      match CourseOf(s, d)
      case Skipped => w
      case SentToJail => WithSeat(w, seat, Jailed(s))
      case StayedInJail => WithSeat(w, seat, JailChoice(s, d.double))
      case Landed(_) => Land(w, ps, board, seat, Arrived(s, d), d.coin)
  }

  /** The world after the turns `ts`, each a (round, seat) pair, are taken in
      order, each with the draw `draws` gives for its round and seat. */
  function Played(w: World, ps: seq<Player>, board: seq<Space>, draws: (int, int) -> Draw, ts: seq<(int, int)>): World
    decreases |ts|
  {
    if ts == [] then w
    else
      var t := ts[|ts| - 1];
      TurnStep(Played(w, ps, board, draws, ts[..|ts| - 1]), ps, board, t.1, draws(t.0, t.1))
  }

  /** Playing two runs of turns one after the other is playing them joined. */
  lemma {:induction false} PlayedAppend(w: World, ps: seq<Player>, board: seq<Space>, draws: (int, int) -> Draw,
                                        ts: seq<(int, int)>, us: seq<(int, int)>)
    ensures Played(w, ps, board, draws, ts + us) == Played(Played(w, ps, board, draws, ts), ps, board, draws, us)
    decreases |us|
  {
    if us == [] {
      assert ts + us == ts;
    } else {
      PlayedAppend(w, ps, board, draws, ts, us[..|us| - 1]);
      assert (ts + us)[..|ts + us| - 1] == ts + us[..|us| - 1];
    }
  }

  /** A turn keeps the seats and the board properties, changes the player whose
      turn it is and, of the others, only their cash, never clears a
      bankruptcy and never takes an owned property from its owner. */
  lemma TurnStepFrame(w: World, ps: seq<Player>, board: seq<Space>, seat: int, d: Draw)
    ensures |TurnStep(w, ps, board, seat, d).states| == |w.states|
    ensures TurnStep(w, ps, board, seat, d).facts.Keys == w.facts.Keys
    ensures forall j :: 0 <= j < |w.states| && j != seat ==>
      TurnStep(w, ps, board, seat, d).states[j] == w.states[j].(cash := TurnStep(w, ps, board, seat, d).states[j].cash)
    ensures forall j :: 0 <= j < |w.states| && w.states[j].bankrupt ==> TurnStep(w, ps, board, seat, d).states[j].bankrupt
    ensures forall pr :: pr in w.facts && w.facts[pr].owner != null ==>
      TurnStep(w, ps, board, seat, d).facts[pr].owner == w.facts[pr].owner
  {
    if 0 <= seat < |w.states| && seat < |ps| {
      var s := w.states[seat];
      if CourseOf(s, d).Landed? {
        var s1 := Arrived(s, d);
        if 0 <= s1.position < |board| && board[s1.position].PropertySpace? {
          var pr := board[s1.position].property;
          if pr in w.facts {
            assert pr in w.facts.Keys;
          }
        }
      }
    }
  }

  /** Over any run of turns the seats and the board properties stay, a
      bankrupt player stays bankrupt, and an owned property keeps its owner. */
  lemma {:induction false} PlayedFrame(w: World, ps: seq<Player>, board: seq<Space>, draws: (int, int) -> Draw, ts: seq<(int, int)>)
    ensures |Played(w, ps, board, draws, ts).states| == |w.states|
    ensures Played(w, ps, board, draws, ts).facts.Keys == w.facts.Keys
    ensures forall j :: 0 <= j < |w.states| && w.states[j].bankrupt ==> Played(w, ps, board, draws, ts).states[j].bankrupt
    ensures forall pr :: pr in w.facts && w.facts[pr].owner != null ==>
      Played(w, ps, board, draws, ts).facts[pr].owner == w.facts[pr].owner
    decreases |ts|
  {
    if ts != [] {
      var t := ts[|ts| - 1];
      PlayedFrame(w, ps, board, draws, ts[..|ts| - 1]);
      TurnStepFrame(Played(w, ps, board, draws, ts[..|ts| - 1]), ps, board, t.1, draws(t.0, t.1));
    }
  }

  /** The player states of `ps`, by seat. */
  function States(ps: seq<Player>): seq<PlayerState>
    reads ps
  {
    seq(|ps|, i reads ps requires 0 <= i < |ps| => ps[i].State())
  }

  function FactsOf(props: set<Property>): map<Property, PropertyState>
    reads props
  {
    map pr | pr in props :: pr.Facts()
  }

  /** The part of the game a turn can change, as a value. */
  function Snapshot(g: Game): World
    reads g`players, g`bank, g.bank, g.players, g.props
  {
    World(States(g.players), FactsOf(g.props), if g.bank != null then g.bank.cash else 0)
  }

  /** Nothing the turn may change has changed, except the objects in `touched`. */
  twostate predicate Untouched(g: Game, new touched: set<object?>)
    reads g, g.bank, g.players, g.props
  {
    && g.bank == old(g.bank) && g.players == old(g.players)
    && (g.bank != null && g.bank !in touched ==> g.bank.cash == old(g.bank.cash))
    && (forall q :: q in g.players && q !in touched ==> q.State() == old(q.State()))
    && (forall pr :: pr in g.props && pr !in touched ==> pr.Facts() == old(pr.Facts()))
  }

  /** Every player other than `p` has changed at most in cash. */
  twostate predicate OthersCashOnly(g: Game, p: Player)
    reads g, g.players
  {
    g.players == old(g.players) &&
    forall q :: q in old(g.players) && q != p ==> q.State() == old(q.State()).(cash := q.cash)
  }

  /** Where a turn acts: the game, the seat of the player whose turn it is, a
      board space (the one visited, or the one bought, or -1 for none) and the
      coin of the visit. The two-state lemmas below take their arguments as one
      such record rather than as separate parameters only because Dafny 4.11
      fails internally on a two-state lemma with more than one parameter when
      it checks for contradictory assumptions. */
  datatype Footprint = Footprint(g: Game, seat: int, space: int, coin: int)

  /** The game stays valid when only the player in `f.seat` moved or paid, no
      other player did more than change cash, and at most the unowned property
      on space `f.space` became that player's, appended to its list. */
  twostate lemma StaysValid(f: Footprint)
    requires old(f.g.Valid()) && f.g.players == old(f.g.players) && f.g.bank == old(f.g.bank)
    requires 0 <= f.seat < |f.g.players|
    requires forall q :: q in f.g.players && q != f.g.players[f.seat] ==>
      && q.position == old(q.position) && q.jailTurns == old(q.jailTurns)
      && q.jailCards == old(q.jailCards) && q.properties == old(q.properties)
    requires var p := f.g.players[f.seat];
      0 <= p.position < BoardSize && 0 <= p.jailTurns <= JailSentence && 0 <= p.jailCards
    requires !(0 <= f.space < |f.g.board| && f.g.board[f.space].PropertySpace?) ==>
      && f.g.players[f.seat].properties == old(f.g.players[f.seat].properties)
      && forall pr :: pr in f.g.props ==> pr.owner == old(pr.owner)
    requires 0 <= f.space < |f.g.board| && f.g.board[f.space].PropertySpace? ==>
      var bought := f.g.board[f.space].property;
      && old(bought.owner) == null && bought.owner == f.g.players[f.seat]
      && f.g.players[f.seat].properties == old(f.g.players[f.seat].properties) + [bought]
      && forall pr :: pr in f.g.props && pr != bought ==> pr.owner == old(pr.owner)
    ensures f.g.Valid()
  {
    var g, p := f.g, f.g.players[f.seat];
    forall q, pr | q in g.players && pr in q.properties ensures pr in g.props && pr.owner == q {
      if q == p && 0 <= f.space < |g.board| && g.board[f.space].PropertySpace? && pr == g.board[f.space].property {
      } else {
        assert pr in old(q.properties);
      }
    }
  }

  /** The game stays valid when only the player in `f.seat` changed, and only
      in cash. */
  twostate lemma CashOnlyKeepsValid(f: Footprint)
    requires old(f.g.Valid()) && 0 <= f.seat < |f.g.players|
    requires var p := f.g.players[f.seat];
      Untouched(f.g, {p, f.g.bank}) && p.State() == old(p.State()).(cash := p.cash)
    ensures f.g.Valid()
  {
    StaysValid(Footprint(f.g, f.seat, -1, f.coin));
  }

  /** The game stays valid after the player in `f.seat` visits the property on
      space `f.space`. */
  twostate lemma VisitKeepsValid(f: Footprint)
    requires old(f.g.Valid()) && f.g.players == old(f.g.players) && 0 <= f.seat < |f.g.players|
    requires var p := f.g.players[f.seat]; old(allocated(p))
    requires 0 <= f.space < |f.g.board| && f.g.board[f.space].PropertySpace?
    requires var p, pr := f.g.players[f.seat], f.g.board[f.space].property;
      && Visited(p, pr, old(p.State()), old(pr.Facts()), old(OwnerCash(pr, p)), f.coin)
      && Untouched(f.g, {p, pr, old(pr.owner)}) && OthersCashOnly(f.g, p)
    ensures f.g.Valid()
  {
    var g, p, pr := f.g, f.g.players[f.seat], f.g.board[f.space].property;
    assert pr in g.props;
    var action := Decide(old(pr.owner) != null, old(pr.mortgage), old(p.cash), old(pr.quotedRent), pr.price, f.coin);
    if action == Purchase {
      StaysValid(Footprint(g, f.seat, f.space, f.coin));
    } else {
      StaysValid(Footprint(g, f.seat, -1, f.coin));
    }
  }

  /** What a turn leaves behind once the player's state before the space is
      resolved is `s1`: the tax of a tax space paid to the bank if the player
      can afford it, the visit of a property space, and nothing else. */
  twostate predicate Resolved(g: Game, p: Player, s1: PlayerState, coin: int)
    reads g, g.bank, g.players, g.props, p, BoardProperties(g.board)
  {
    0 <= s1.position < |g.board| &&
    match g.board[s1.position]
    case TaxSpace(tax) =>
      && p.State() == s1.(cash := if s1.cash >= tax then s1.cash - tax else s1.cash)
      && g.bank != null && old(g.bank) != null
      && g.bank.cash == old(g.bank.cash) + (s1.cash - p.cash)
      && Untouched(g, {p, g.bank})
    case PlainSpace =>
      p.State() == s1 && Untouched(g, {p})
    case PropertySpace(pr) =>
      && (old(pr.owner) == null || old(pr.owner) in g.players)
      && Visited(p, pr, s1, old(pr.Facts()), old(OwnerCash(pr, p)), coin)
      && Untouched(g, {p, pr, old(pr.owner)}) && OthersCashOnly(g, p)
  }

  /** The space dispatch at the end of a turn that moved: pay the tax of a
      tax space to the bank, visit a property space, and do nothing on any
      other space. */
  method ResolveSpace(g: Game, p: Player, coin: int)
    requires g.Valid() && p in g.players && 0 <= coin <= 1
    modifies g.bank, g.players, g.props
    ensures g.Valid()
    ensures Resolved(g, p, old(p.State()), coin)
  {
    ghost var k :| 0 <= k < |g.players| && g.players[k] == p;
    var space := g.board[p.position];
    match space
    case TaxSpace(tax) =>
      p.Pay(tax, BankPayee(g.bank));
      CashOnlyKeepsValid(Footprint(g, k, -1, coin));
    case PropertySpace(pr) =>
      ghost var at := p.position;
      p.VisitProperty(pr, coin);
      VisitKeepsValid(Footprint(g, k, at, coin));
    case PlainSpace =>
  }

  /** Moves the player by `roll` and resolves the space it lands on. */
  method MoveAndResolve(g: Game, p: Player, roll: int, coin: int)
    requires g.Valid() && p in g.players && 0 <= roll <= BoardSize && 0 <= coin <= 1
    modifies g.bank, g.players, g.props
    ensures g.Valid()
    ensures Resolved(g, p, Moved(old(p.State()), roll), coin)
  {
    ghost var k :| 0 <= k < |g.players| && g.players[k] == p;
    p.Move(roll);
    StaysValid(Footprint(g, k, -1, 0));
    assert forall q :: q in g.players && q != p ==> q.State() == old(q.State());
    assert forall pr :: pr in g.props ==> pr.Facts() == old(pr.Facts()) && OwnerCash(pr, p) == old(OwnerCash(pr, p));
    assert g.bank.cash == old(g.bank.cash);
    ResolveSpace(g, p, coin);
  }

  /** The rest of a turn once the player is neither bankrupt nor on a third
      double: a jailed player tries to leave jail, and a player who is out of
      jail moves and resolves the space. */
  method LeaveJailAndMove(g: Game, p: Player, d: Draw)
    requires g.Valid() && p in g.players && Plausible(d)
    modifies g.bank, g.players, g.props
    ensures g.Valid()
    ensures
      var s := old(p.State());
      if s.jailTurns > 0 && StaysInJail(s, d.double) then
        p.State() == JailChoice(s, d.double) && Untouched(g, {p})
      else
        Resolved(g, p, Arrived(s, d), d.coin)
  {
    ghost var k :| 0 <= k < |g.players| && g.players[k] == p;
    if p.jailTurns > 0 {
      var stayInJail := p.ChooseJailStrategy(d.double);
      if stayInJail {
        StaysValid(Footprint(g, k, -1, 0));
        return;
      }
      StaysValid(Footprint(g, k, -1, 0));
    }
    assert forall q :: q in g.players && q != p ==> q.State() == old(q.State());
    assert forall pr :: pr in g.props ==> pr.Facts() == old(pr.Facts()) && OwnerCash(pr, p) == old(OwnerCash(pr, p));
    assert g.bank.cash == old(g.bank.cash);
    assert p.State() == Freed(old(p.State()), d);
    MoveAndResolve(g, p, d.rollSum, d.coin);
  }

  /** The body of the `while True` loop for `p`, every path of which ends the
      turn: skip a bankrupt player; jail on the third double; otherwise try to
      leave jail, move and resolve the space. `buy_building` is not called. */
  method TakeTurn(g: Game, p: Player, d: Draw)
    requires g.Valid() && p in g.players && Plausible(d)
    modifies g.bank, g.players, g.props
    ensures g.Valid()
    ensures TurnTaken(g, p, d)
    ensures Snapshot(g) == TurnStep(old(Snapshot(g)), g.players, g.board, p.id - 1, d)
  {
    ghost var k :| 0 <= k < |g.players| && g.players[k] == p;
    label turn: {
      if p.bankrupt {
        assert TurnTaken(g, p, d);
        break turn;
      }
      if d.doubleCounter == 3 {
        p.GoToJail();
        StaysValid(Footprint(g, k, -1, 0));
        assert TurnTaken(g, p, d);
        break turn;
      }
      LeaveJailAndMove(g, p, d);
      assert TurnTaken(g, p, d);
    }
    TurnMatches(Act(g, k, d));
  }

  /** What one turn of `p` with draw `d` did, path by path: a bankrupt player
      changes nothing; a third double sends the player to jail; a jailed player
      who stays only makes the jail choice; any other player moves from the
      state after leaving jail and the space is resolved. */
  twostate predicate TurnTaken(g: Game, p: Player, d: Draw)
    reads g, g.bank, g.players, g.props, p, BoardProperties(g.board)
  {
    var s := old(p.State());
    match CourseOf(s, d)
    case Skipped => Untouched(g, {})
    case SentToJail => p.State() == Jailed(s) && Untouched(g, {p})
    case StayedInJail => p.State() == JailChoice(s, d.double) && Untouched(g, {p})
    case Landed(_) => Resolved(g, p, Arrived(s, d), d.coin)
  }

  /** A turn, for the lemmas that lift it to values: the game, the seat and the
      draw. Like `Footprint`, it bundles the arguments of two-state lemmas into
      one record only because Dafny 4.11 fails internally on a two-state lemma
      with more than one parameter when it checks for contradictory assumptions. */
  datatype Act = Act(g: Game, seat: int, d: Draw)

  /** A turn taken as `TurnTaken` says changes the game's snapshot exactly as
      `TurnStep` does. */
  twostate lemma TurnMatches(a: Act)
    requires old(a.g.Valid()) && 0 <= a.seat < |a.g.players| && Plausible(a.d)
    requires a.g.players == old(a.g.players) && a.g.bank == old(a.g.bank)
    requires TurnTaken(a.g, a.g.players[a.seat], a.d)
    ensures Snapshot(a.g) == TurnStep(old(Snapshot(a.g)), a.g.players, a.g.board, a.seat, a.d)
  {
    var g, i, p := a.g, a.seat, a.g.players[a.seat];
    var s := old(p.State());
    var w0, w1 := old(Snapshot(g)), Snapshot(g);
    assert w0.states[i] == s;
    assert forall j :: 0 <= j < |g.players| && j != i ==> g.players[j] != p;
    match CourseOf(s, a.d)
    case Skipped =>
      assert w1.states == w0.states;
    case SentToJail =>
      assert w1.states == w0.states[i := Jailed(s)];
    case StayedInJail =>
      assert w1.states == w0.states[i := JailChoice(s, a.d.double)];
    case Landed(_) =>
      LandMatches(a);
  }

  /** The move-and-resolve path of `TurnMatches`. */
  twostate lemma LandMatches(a: Act)
    requires old(a.g.Valid()) && 0 <= a.seat < |a.g.players| && Plausible(a.d)
    requires a.g.players == old(a.g.players) && a.g.bank == old(a.g.bank)
    requires var p := a.g.players[a.seat]; Resolved(a.g, p, Arrived(old(p.State()), a.d), a.d.coin)
    ensures var s1 := Arrived(old(a.g.players[a.seat].State()), a.d);
      Snapshot(a.g) == Land(old(Snapshot(a.g)), a.g.players, a.g.board, a.seat, s1, a.d.coin)
  {
    var g, i, p := a.g, a.seat, a.g.players[a.seat];
    var s1 := Arrived(old(p.State()), a.d);
    var w0, w1 := old(Snapshot(g)), Snapshot(g);
    assert forall j :: 0 <= j < |g.players| && j != i ==> g.players[j] != p;
    match g.board[s1.position]
    case TaxSpace(tax) =>
      assert w1.states == w0.states[i := p.State()];
    case PlainSpace =>
      assert w1.states == w0.states[i := s1];
    case PropertySpace(pr) =>
      VisitMatches(a);
  }

  /** A turn of `a` that moved onto a property space and visited it. */
  twostate predicate AtProperty(a: Act)
    reads a.g, a.g.bank, a.g.players, a.g.props, BoardProperties(a.g.board)
  {
    && old(a.g.Valid()) && 0 <= a.seat < |a.g.players| && Plausible(a.d)
    && a.g.players == old(a.g.players) && a.g.bank == old(a.g.bank)
    && var p := a.g.players[a.seat]; var s1 := Arrived(old(p.State()), a.d);
      && 0 <= s1.position < |a.g.board| && a.g.board[s1.position].PropertySpace?
      && Resolved(a.g, p, s1, a.d.coin)
  }

  /** The snapshot after the visit of `a` is the value visit of the snapshot before. */
  twostate predicate VisitLifted(a: Act)
    requires AtProperty(a)
    reads a.g, a.g.bank, a.g.players, a.g.props, BoardProperties(a.g.board)
  {
    var p := a.g.players[a.seat]; var s1 := Arrived(old(p.State()), a.d);
    var pr := a.g.board[s1.position].property;
    pr in old(Snapshot(a.g)).facts &&
    Snapshot(a.g) == VisitStep(old(Snapshot(a.g)), a.g.players, a.seat, s1, pr, old(Snapshot(a.g)).facts[pr], a.d.coin)
  }

  /** The action the visit of `a` takes. */
  twostate function VisitAction(a: Act): Visit
    requires AtProperty(a)
    reads a.g, a.g.bank, a.g.players, a.g.props, BoardProperties(a.g.board)
  {
    var p := a.g.players[a.seat]; var s1 := Arrived(old(p.State()), a.d);
    var pr := a.g.board[s1.position].property;
    var prior := old(pr.Facts());
    Decide(prior.owner != null, prior.mortgage, s1.cash, prior.quotedRent, pr.price, a.d.coin)
  }

  /** Whether the visit of `a` pays rent to another player. */
  twostate predicate PaysRent(a: Act)
    requires AtProperty(a)
    reads a.g, a.g.bank, a.g.players, a.g.props, BoardProperties(a.g.board)
  {
    var p := a.g.players[a.seat]; var s1 := Arrived(old(p.State()), a.d);
    var pr := a.g.board[s1.position].property;
    VisitAction(a) == PayRent && s1.cash >= old(pr.rentNow) && old(pr.owner) != p
  }

  /** The property-visit path of `LandMatches`. */
  twostate lemma VisitMatches(a: Act)
    requires AtProperty(a)
    ensures VisitLifted(a)
  {
    if PaysRent(a) {
      RentMatches(a);
    } else if VisitAction(a) == Purchase {
      PurchaseMatches(a);
    } else {
      NoTransferMatches(a);
    }
  }

  /** Properties whose states a turn kept leave the snapshot's property states as they were. */
  twostate lemma FactsKept(g: Game)
    requires forall pr :: pr in g.props ==> pr.Facts() == old(pr.Facts())
    ensures FactsOf(g.props) == old(FactsOf(g.props))
  {
  }

  /** The rent path of `VisitStep`: the payer's seat loses the rent, the
      owner's seat gains it, and nothing else changes. */
  lemma RentStep(w0: World, w1: World, ps: seq<Player>, seat: int, s: PlayerState, pr: Property, prior: PropertyState, coin: int)
    requires 0 <= seat < |w0.states| && seat < |ps| && prior.owner != null
    requires Decide(true, prior.mortgage, s.cash, prior.quotedRent, pr.price, coin) == PayRent
    requires s.cash >= prior.rentNow && prior.owner != ps[seat]
    requires 0 <= prior.owner.id - 1 < |w0.states| && prior.owner.id - 1 != seat
    requires
      var o := prior.owner.id - 1;
      w1.states == w0.states[seat := s.(cash := s.cash - prior.rentNow)][o := w0.states[o].(cash := w0.states[o].cash + prior.rentNow)]
    requires w1.facts == w0.facts && w1.bank == w0.bank
    ensures w1 == VisitStep(w0, ps, seat, s, pr, prior, coin)
  {
  }

  /** On the rent path the payer's seat loses the rent, the owner's seat gains
      it, and every other seat is as it was. */
  twostate lemma RentSeats(a: Act)
    requires AtProperty(a) && PaysRent(a)
    ensures
      var p := a.g.players[a.seat]; var s1 := Arrived(old(p.State()), a.d);
      var pr := a.g.board[s1.position].property; var prior := old(pr.Facts());
      var w0 := old(Snapshot(a.g));
      && 0 <= a.seat < |w0.states| && prior.owner != null
      && Decide(true, prior.mortgage, s1.cash, prior.quotedRent, pr.price, a.d.coin) == PayRent
      && s1.cash >= prior.rentNow && prior.owner != p
      && 0 <= prior.owner.id - 1 < |w0.states| && prior.owner.id - 1 != a.seat
      && Snapshot(a.g).states == w0.states[a.seat := s1.(cash := s1.cash - prior.rentNow)]
           [prior.owner.id - 1 := w0.states[prior.owner.id - 1].(cash := w0.states[prior.owner.id - 1].cash + prior.rentNow)]
  {
    var g, i, p := a.g, a.seat, a.g.players[a.seat];
    var s1 := Arrived(old(p.State()), a.d);
    var pr := g.board[s1.position].property;
    var w0, w1 := old(Snapshot(g)), Snapshot(g);
    assert pr in g.props;
    var owner := old(pr.owner);
    VisitedRent(p, pr, s1, old(pr.Facts()), old(OwnerCash(pr, p)), a.d.coin);
    assert forall j :: 0 <= j < |g.players| && j != i ==> g.players[j] != p;
    var o :| 0 <= o < |g.players| && g.players[o] == owner;
    assert owner.id - 1 == o;
    assert w1.states == w0.states[i := p.State()][o := owner.State()];
  }

  /** On the rent path no property changes and neither does the bank. */
  twostate lemma RentFacts(a: Act)
    requires AtProperty(a) && PaysRent(a)
    ensures Snapshot(a.g).facts == old(Snapshot(a.g)).facts && Snapshot(a.g).bank == old(Snapshot(a.g)).bank
  {
    var g, p := a.g, a.g.players[a.seat];
    var s1 := Arrived(old(p.State()), a.d);
    var pr := g.board[s1.position].property;
    assert pr in g.props;
    assert forall q :: q in g.props ==> q.Facts() == old(q.Facts());
    FactsKept(g);
  }

  twostate lemma RentMatches(a: Act)
    requires AtProperty(a) && PaysRent(a)
    ensures VisitLifted(a)
  {
    var p := a.g.players[a.seat];
    var s1 := Arrived(old(p.State()), a.d);
    var pr := a.g.board[s1.position].property;
    RentSeats(a);
    RentFacts(a);
    RentStep(old(Snapshot(a.g)), Snapshot(a.g), a.g.players, a.seat, s1, pr, old(pr.Facts()), a.d.coin);
  }

  twostate lemma PurchaseMatches(a: Act)
    requires AtProperty(a) && VisitAction(a) == Purchase
    ensures VisitLifted(a)
  {
    var g, i, p := a.g, a.seat, a.g.players[a.seat];
    var s1 := Arrived(old(p.State()), a.d);
    var pr := g.board[s1.position].property;
    var w0, w1 := old(Snapshot(g)), Snapshot(g);
    assert pr in g.props;
    assert forall j :: 0 <= j < |g.players| && j != i ==> g.players[j] != p;
    assert w1.states == w0.states[i := p.State()];
    assert w1.facts == w0.facts[pr := pr.Facts()];
  }

  twostate lemma NoTransferMatches(a: Act)
    requires AtProperty(a) && !PaysRent(a) && VisitAction(a) != Purchase
    ensures VisitLifted(a)
  {
    var g, i, p := a.g, a.seat, a.g.players[a.seat];
    var s1 := Arrived(old(p.State()), a.d);
    var pr := g.board[s1.position].property;
    var w0, w1 := old(Snapshot(g)), Snapshot(g);
    assert pr in g.props;
    assert forall j :: 0 <= j < |g.players| && j != i ==> g.players[j] != p;
    assert w1.states == w0.states[i := p.State()];
    assert forall q :: q in g.props ==> q.Facts() == old(q.Facts());
    FactsKept(g);
  }

  /** The turns of round `k` in seat order. */
  function RoundTurns(k: int, n: nat): (ts: seq<(int, int)>)
    ensures |ts| == n && forall i :: 0 <= i < n ==> ts[i] == (k, i)
  {
    seq(n, i requires 0 <= i < n => (k, i))
  }

  /** The (round, seat) pairs of `rounds` full rounds of `n` players, in play order. */
  function Schedule(rounds: int, n: nat): seq<(int, int)>
    decreases rounds
  {
    if rounds <= 0 then [] else Schedule(rounds - 1, n) + RoundTurns(rounds, n)
  }

  /** Turn `x` comes before turn `y`: an earlier round, or the same round and an earlier seat. */
  predicate Before(x: (int, int), y: (int, int))
  {
    x.0 < y.0 || (x.0 == y.0 && x.1 < y.1)
  }

  /** The schedule holds every seat of every round, nothing else, and in play
      order: rounds ascending, and seats in list order within a round. With
      its length this makes every (round, seat) appear exactly once. */
  lemma {:induction false} ScheduleOrder(rounds: int, n: nat)
    ensures forall t :: t in Schedule(rounds, n) <==> 1 <= t.0 <= rounds && 0 <= t.1 < n
    ensures forall a, b :: 0 <= a < b < |Schedule(rounds, n)| ==> Before(Schedule(rounds, n)[a], Schedule(rounds, n)[b])
    ensures |Schedule(rounds, n)| == if rounds <= 0 then 0 else rounds * n
    decreases rounds
  {
    if rounds > 0 {
      ScheduleOrder(rounds - 1, n);
      var pre, last := Schedule(rounds - 1, n), RoundTurns(rounds, n);
      assert Schedule(rounds, n) == pre + last;
      forall t: (int, int) ensures t in pre + last <==> 1 <= t.0 <= rounds && 0 <= t.1 < n {
        if t.0 == rounds && 0 <= t.1 < n {
          assert last[t.1] == t;
        }
      }
      forall a, b | 0 <= a < b < |pre + last| ensures Before((pre + last)[a], (pre + last)[b]) {
        if b >= |pre| && a < |pre| {
          assert pre[a] in pre;
        }
      }
      assert |pre + last| == rounds * n by {
        assert (rounds - 1) * n + n == rounds * n;
      }
    }
  }

  /** A game whose players are seated as new players and whose 40-space board
      has no owned property satisfies the turn loop's invariant. */
  lemma StartsValid(g: Game)
    requires g.bank != null && |g.board| == BoardSize && g.props == BoardProperties(g.board)
    requires forall pr :: pr in g.props ==> pr.owner == null
    requires Seated(g.players)
    ensures g.Valid()
  {
    forall i | 0 <= i < |g.players| ensures Game.OnBoard(g.players[i]) && g.players[i].properties == [] {
      assert g.players[i].State() == Starting();
    }
  }

  /** One round of `main`'s `while` loop: the round counter goes up, then
      every player, in list order, takes a turn with the dice and coin `draws`
      gives for the new round and its seat. */
  method PlayRound(g: Game, draws: (int, int) -> Draw)
    requires g.Valid() && forall k, i :: Plausible(draws(k, i))
    modifies g`round, g.bank, g.players, g.props
    ensures g.Valid() && g.round == old(g.round) + 1
    ensures Snapshot(g) == Played(old(Snapshot(g)), g.players, g.board, draws, RoundTurns(g.round, |g.players|))
  {
    ghost var w0 := Snapshot(g);
    g.UpdateRound();
    assert Snapshot(g) == w0;
    ghost var ts := RoundTurns(g.round, |g.players|);
    for i := 0 to |g.players|
      invariant g.Valid() && g.round == old(g.round) + 1
      invariant Snapshot(g) == Played(w0, g.players, g.board, draws, ts[..i])
    {
      assert ts[..i + 1][..i] == ts[..i];
      TakeTurn(g, g.players[i], draws(g.round, i));
    }
    assert ts[..|g.players|] == ts;
  }

  /** The world after rounds 1..`k` of `n` players, one round after the other. */
  function Rounds(w: World, ps: seq<Player>, board: seq<Space>, draws: (int, int) -> Draw, k: int, n: nat): World
    decreases k
  {
    if k <= 0 then w else Played(Rounds(w, ps, board, draws, k - 1, n), ps, board, draws, RoundTurns(k, n))
  }

  lemma RoundsNext(w: World, before: World, after: World, ps: seq<Player>, board: seq<Space>, draws: (int, int) -> Draw, k: int, n: nat)
    requires 0 <= k && before == Rounds(w, ps, board, draws, k, n)
    requires after == Played(before, ps, board, draws, RoundTurns(k + 1, n))
    ensures after == Rounds(w, ps, board, draws, k + 1, n)
  {
  }

  /** Playing rounds 1..`k` one after the other is playing their schedule. */
  lemma {:induction false} RoundsFollowSchedule(w: World, ps: seq<Player>, board: seq<Space>, draws: (int, int) -> Draw, k: int, n: nat)
    ensures Rounds(w, ps, board, draws, k, n) == Played(w, ps, board, draws, Schedule(k, n))
    decreases k
  {
    if k > 0 {
      RoundsFollowSchedule(w, ps, board, draws, k - 1, n);
      PlayedAppend(w, ps, board, draws, Schedule(k - 1, n), RoundTurns(k, n));
    }
  }

  /** A round of `main` played on a game that is the world `start` after the
      rounds so far leaves it that world after one more round. */
  method NextRound(g: Game, draws: (int, int) -> Draw, ghost start: World)
    requires g.Valid() && 0 <= g.round && forall k, i :: Plausible(draws(k, i))
    requires Snapshot(g) == Rounds(start, g.players, g.board, draws, g.round, |g.players|)
    modifies g`round, g.bank, g.players, g.props
    ensures g.Valid() && g.round == old(g.round) + 1
    ensures Snapshot(g) == Rounds(start, g.players, g.board, draws, g.round, |g.players|)
  {
    ghost var k, before := g.round, Snapshot(g);
    PlayRound(g, draws);
    RoundsNext(start, before, Snapshot(g), g.players, g.board, draws, k, |g.players|);
  }

  /** The world a game starts from: `n` new players, the board properties in
      the states `facts`, and the bank's reserve less the players' starting cash. */
  function Opening(n: nat, facts: map<Property, PropertyState>, reserve: int): World
  {
    World(seq(n, _ => Starting()), facts, reserve - n * StartingCash)
  }

  /** The `while` loop of `main`: while more than one player remains, a new
      round starts and every player takes a turn, until the round `maxRounds`
      has been played. `update` is never called, so the count of remaining
      players keeps its value and the rounds limit alone ends the loop. */
  method PlayRounds(g: Game, maxRounds: int, draws: (int, int) -> Draw, ghost start: World)
    requires g.Valid() && g.round == 0 && 1 <= maxRounds && forall k, i :: Plausible(draws(k, i))
    requires Snapshot(g) == start
    modifies g`round, g.bank, g.players, g.props
    ensures g.Valid()
    ensures g.round == if g.playersRemaining > 1 then maxRounds else 0
    ensures Snapshot(g) == Rounds(start, g.players, g.board, draws, g.round, |g.players|)
  {
    ghost var ps, n := g.players, |g.players|;
    while g.playersRemaining > 1
      invariant g.Valid() && 0 <= g.round < maxRounds
      invariant g.playersRemaining > 1 || g.round == 0
      invariant g.players == ps && |g.players| == n
      invariant Snapshot(g) == Rounds(start, ps, g.board, draws, g.round, n)
      decreases maxRounds - g.round
    {
      NextRound(g, draws, start);
      if g.round == maxRounds {
        break;
      }
    }
  }

  /** `main`: builds a game with its default number of rounds and plays its
      rounds, every player taking one turn per round in list order with the
      dice and coin that `draws` gives for that round and seat. */
  method Play(maxRounds: int, nPlayers: int, reserve: int, board: seq<Space>, draws: (int, int) -> Draw)
    returns (r: Result<Game>)
    requires (1 <= maxRounds || !LegalPlayerCount(nPlayers)) && |board| == BoardSize
    requires forall i :: 0 <= i < |board| && board[i].PropertySpace? ==> board[i].property.owner == null
    requires forall k, i :: Plausible(draws(k, i))
    modifies BoardProperties(board)
    ensures r.Raised? <==> !LegalPlayerCount(nPlayers)
    ensures r.Raised? ==> forall pr :: pr in BoardProperties(board) ==> pr.Facts() == old(pr.Facts())
    ensures r.Ok? ==>
      var g := r.value;
      && g.Valid() && g.board == board && g.maxRounds == DefaultMaxRounds
      && g.round == maxRounds && |g.players| == nPlayers && g.playersRemaining == nPlayers && g.table == map[]
      && Snapshot(g) == Played(Opening(nPlayers, old(FactsOf(BoardProperties(board))), reserve),
                               g.players, board, draws, Schedule(maxRounds, nPlayers))
  {
    r := NewGame(DefaultMaxRounds, nPlayers, reserve, board);
    if r.Raised? {
      return;
    }
    var g := r.value;
    StartsValid(g);
    ghost var start := Opening(nPlayers, old(FactsOf(BoardProperties(board))), reserve);
    assert Snapshot(g) == start;
    assert forall i :: 0 <= i < |g.players| ==> fresh(g.players[i]) by {
      assert forall i :: 0 <= i < |g.players| ==> g.players[i] in g.players;
    }
    PlayRounds(g, maxRounds, draws, start);
    RoundsFollowSchedule(start, g.players, board, draws, maxRounds, nPlayers);
  }
}
