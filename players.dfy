/** The player of player.py and the pieces of the board it acts on.

    bank.py and spaces.py are not part of this model: `Bank` and `Property`
    declare only the fields the player and turn code read or write, and
    `Space` stands for the board's space classes as the turn loop tells them
    apart (a tax space, a property space, anything else). Every operation of
    `Player` is a method that updates the object in place; its new state is
    given by a function on `PlayerState` values, and the properties of those
    functions are the lemmas further down. */
module Players {
  import opened Monopolies

  const BoardSize := 40
  const StartingCash := 1500
  const GoBonus := 200
  const JailPosition := 10
  const JailSentence := 3
  const JailFine := 50
  const MaxBuildings := 5

  /** The bank: a cash reserve that receives taxes. */
  class Bank {
    var cash: int

    constructor (reserve: int)
      ensures cash == reserve
    {
      cash := reserve;
    }
  }

  /** The three property space classes: only streets take buildings. */
  datatype Kind = Street | Railroad | Utility

  /** The rent a street charges with one to four houses, or a hotel. */
  datatype RentTable = RentTable(house1: int, house2: int, house3: int, house4: int, hotel: int)
  {
    /** Rent for `n` buildings, 5 standing for the hotel. */
    function ForCount(n: int): int
      requires 1 <= n <= MaxBuildings
    {
      match n
      case 1 => house1
      case 2 => house2
      case 3 => house3
      case 4 => house4
      case 5 => hotel
    }
  }

  /** The mutable part of a property space. */
  datatype PropertyState = PropertyState(owner: Player?, mortgage: bool, rentNow: int, nBuildings: int, quotedRent: int)

  /** A purchasable space (Street, Railroad or Utility). `quotedRent` is the
      value `get_rent()` reports; how spaces.py computes it is not modelled. */
  class Property {
    const kind: Kind
    const price: int
    const monopoly: Group
    const monopolySize: int
    const buildCost: int
    const rents: RentTable
    var owner: Player?
    var mortgage: bool
    var rentNow: int
    var nBuildings: int
    var quotedRent: int

    constructor (kind: Kind, price: int, monopoly: Group, monopolySize: int, buildCost: int, rents: RentTable, rent: int, quoted: int)
      ensures this.kind == kind && this.price == price && this.monopoly == monopoly
      ensures this.monopolySize == monopolySize && this.buildCost == buildCost && this.rents == rents
      ensures Facts() == PropertyState(null, false, rent, 0, quoted)
    {
      this.kind, this.price, this.monopoly, this.monopolySize := kind, price, monopoly, monopolySize;
      this.buildCost, this.rents := buildCost, rents;
      owner, mortgage, rentNow, nBuildings, quotedRent := null, false, rent, 0, quoted;
    }

    function Facts(): PropertyState
      reads this
    {
      PropertyState(owner, mortgage, rentNow, nBuildings, quotedRent)
    }
  }

  /** A board space as the turn loop distinguishes it; Chance, Chest, Jail and
      Idle spaces have no effect there and are all `PlainSpace`. */
  datatype Space = PropertySpace(property: Property) | TaxSpace(tax: int) | PlainSpace

  /** Who receives a payment: another player or the bank. */
  datatype Payee = PlayerPayee(player: Player) | BankPayee(bank: Bank)
  {
    function Holder(): object
    {
      match this
      case PlayerPayee(p) => p
      case BankPayee(b) => b
    }

    function Cash(): int
      reads Holder()
    {
      match this
      case PlayerPayee(p) => p.cash
      case BankPayee(b) => b.cash
    }
  }

  /** All the mutable fields of a player, as one value. */
  datatype PlayerState = PlayerState(
    cash: int, position: int, properties: seq<Property>, jailCards: int, jailTurns: int,
    bankrupt: bool, ownsMonopoly: bool, monopolies: seq<Group>)

  /** A new player: 1500 in cash, on Go, owning nothing, out of jail. */
  function Starting(): PlayerState
  {
    PlayerState(StartingCash, 0, [], 0, 0, false, false, [])
  }

  /** After moving `roll` spaces: one lap off the position and the Go bonus once 40 is reached. */
  function Moved(s: PlayerState, roll: int): PlayerState
  {
    var position := s.position + roll;
    if position >= BoardSize then s.(position := position - BoardSize, cash := s.cash + GoBonus)
    else s.(position := position)
  }

  function Jailed(s: PlayerState): PlayerState
  {
    s.(position := JailPosition, jailTurns := JailSentence)
  }

  /** Whether a jailed player stays in jail this turn. */
  predicate StaysInJail(s: PlayerState, rolledDouble: bool)
  {
    !rolledDouble && s.jailCards <= 0 && s.cash < JailFine
  }

  /** A jailed player's turn in jail: leave on a double, else by a card, else by
      paying the fine, else serve one more turn. */
  function JailChoice(s: PlayerState, rolledDouble: bool): PlayerState
  {
    if rolledDouble then s.(jailTurns := 0)
    else if s.jailCards > 0 then s.(jailTurns := 0, jailCards := s.jailCards - 1)
    else if s.cash >= JailFine then s.(jailTurns := 0, cash := s.cash - JailFine)
    else s.(jailTurns := s.jailTurns - 1)
  }

  function Holdings(ps: seq<Property>): (hs: seq<Holding>)
    ensures |hs| == |ps| && forall i :: 0 <= i < |ps| ==> hs[i] == Holding(ps[i].monopoly, ps[i].monopolySize)
  {
    seq(|ps|, i requires 0 <= i < |ps| => Holding(ps[i].monopoly, ps[i].monopolySize))
  }

  /** After `count_monopolies`: the groups the walk over the properties credits
      are appended, and the monopoly flag is raised when any was. */
  function Recounted(s: PlayerState): PlayerState
  {
    var credited := Run(s.monopolies, Holdings(s.properties)).credited;
    s.(monopolies := credited, ownsMonopoly := s.ownsMonopoly || |credited| > |s.monopolies|)
  }

  /** After buying `property`: it is appended, its price debited, monopolies recounted. */
  function Bought(s: PlayerState, property: Property): PlayerState
  {
    Recounted(s.(properties := s.properties + [property], cash := s.cash - property.price))
  }

  /** What `visit_property` does, from what it reads. */
  datatype Visit = PayRent | Bankruptcy | Purchase | Decline | Ignore

  function Decide(owned: bool, mortgaged: bool, cash: int, quotedRent: int, price: int, coin: int): Visit
  {
    if owned && !mortgaged then (if cash >= quotedRent then PayRent else Bankruptcy)
    else if !owned && cash >= price then (if coin == 1 then Purchase else Decline)
    else Ignore
  }

  /** The cash of the owner of `property`, when that is a player other than `p`. */
  function OwnerCash(property: Property, p: Player): int
    reads property, property.owner
  {
    if property.owner != null && property.owner != p then property.owner.cash else 0
  }

  /** The effect of `visit_property` by player `p` on `property`, when `p` was
      in state `before`, the property in state `prior` and its owner, if other
      than `p`, had `ownerCash`. */
  predicate Visited(p: Player, property: Property, before: PlayerState, prior: PropertyState, ownerCash: int, coin: int)
    reads p, property, prior.owner
  {
    var owner := prior.owner;
    var action := Decide(owner != null, prior.mortgage, before.cash, prior.quotedRent, property.price, coin);
    match action
    case PayRent =>
      owner != null && property.Facts() == prior &&
      if before.cash >= prior.rentNow && owner != p then
        p.State() == before.(cash := before.cash - prior.rentNow) && owner.cash == ownerCash + prior.rentNow
      else
        p.State() == before && (owner != p ==> owner.cash == ownerCash)
    case Bankruptcy =>
      owner != null && property.Facts() == prior &&
      p.State() == before.(bankrupt := true) && (owner != p ==> owner.cash == ownerCash)
    case Purchase =>
      owner == null && property.Facts() == prior.(owner := p) && p.State() == Bought(before, property)
    case Decline =>
      property.Facts() == prior && p.State() == before
    case Ignore =>
      property.Facts() == prior && p.State() == before && (owner != null && owner != p ==> owner.cash == ownerCash)
  }

  /** The rent path of `Visited`: the payer loses the rent, the owner gains it
      and the property is as it was. */
  lemma VisitedRent(p: Player, property: Property, before: PlayerState, prior: PropertyState, ownerCash: int, coin: int)
    requires Visited(p, property, before, prior, ownerCash, coin)
    requires Decide(prior.owner != null, prior.mortgage, before.cash, prior.quotedRent, property.price, coin) == PayRent
    requires before.cash >= prior.rentNow && prior.owner != p
    ensures prior.owner != null && property.Facts() == prior
    ensures p.State() == before.(cash := before.cash - prior.rentNow)
    ensures prior.owner.cash == ownerCash + prior.rentNow
  {
  }

  /** A property on which `buy_building` may put a building. */
  predicate CanBuild(q: Property, monopolies: seq<Group>, cash: int)
    reads q
  {
    q.monopoly in monopolies && q.kind == Street && q.buildCost <= cash && q.nBuildings < MaxBuildings
  }

  /** The purchase options `buy_building` collects, in property-list order. */
  function Options(ps: seq<Property>, monopolies: seq<Group>, cash: int): seq<Property>
    reads ps
    decreases |ps|
  {
    if ps == [] then []
    else
      var rest := Options(ps[..|ps| - 1], monopolies, cash);
      if CanBuild(ps[|ps| - 1], monopolies, cash) then rest + [ps[|ps| - 1]] else rest
  }

  /** The options are exactly the properties in the list that may take a
      building, each at most once when the list has no repetitions. */
  lemma {:induction false} OptionsMeaning(ps: seq<Property>, monopolies: seq<Group>, cash: int)
    ensures |Options(ps, monopolies, cash)| <= |ps|
    ensures forall q :: q in Options(ps, monopolies, cash) <==> q in ps && CanBuild(q, monopolies, cash)
    ensures Distinct(ps) ==> Distinct(Options(ps, monopolies, cash))
    decreases |ps|
  {
    if ps != [] {
      var init, last := ps[..|ps| - 1], ps[|ps| - 1];
      OptionsMeaning(init, monopolies, cash);
      assert ps == init + [last];
      if Distinct(ps) {
        assert Distinct(init) by {
          forall i, j | 0 <= i < j < |init| ensures init[i] != init[j] {
            assert init[i] == ps[i] && init[j] == ps[j];
          }
        }
        assert last !in init by {
          forall i | 0 <= i < |init| ensures init[i] != last {
            assert init[i] == ps[i];
          }
        }
      }
    }
  }

  class Player {
    const id: int
    var cash: int
    var properties: seq<Property>
    var position: int
    var jailCards: int
    var jailTurns: int
    var bankrupt: bool
    var ownsMonopoly: bool
    var monopolies: seq<Group>

    function State(): PlayerState
      reads this
    {
      PlayerState(cash, position, properties, jailCards, jailTurns, bankrupt, ownsMonopoly, monopolies)
    }

    constructor (playerId: int)
      ensures id == playerId && State() == Starting()
    {
      id := playerId;
      cash, properties, position := StartingCash, [], 0;
      jailCards, jailTurns, bankrupt := 0, 0, false;
      ownsMonopoly, monopolies := false, [];
    }

    method Move(roll: int)
      modifies this
      ensures State() == Moved(old(State()), roll)
      ensures 0 <= old(position) < BoardSize && 0 <= roll <= BoardSize ==>
        position == (old(position) + roll) % BoardSize && 0 <= position < BoardSize
    {
      position := position + roll;
      if position >= BoardSize {
        position := position - BoardSize;
        cash := cash + GoBonus;
      }
    }

    method VisitProperty(property: Property, coin: int)
      requires 0 <= coin <= 1
      modifies this, property, property.owner
      ensures Visited(this, property, old(State()), old(property.Facts()), old(OwnerCash(property, this)), coin)
      ensures var owner := old(property.owner);
        owner != null && owner != this ==> owner.State() == old(owner.State()).(cash := owner.cash)
    {
      var isOwned := property.owner != null;
      var isUnmortgaged := !property.mortgage;
      var canAffordRent := cash >= property.quotedRent;
      var canAffordPurchase := cash >= property.price;
      if isOwned && isUnmortgaged {
        if canAffordRent {
          Pay(property.rentNow, PlayerPayee(property.owner));
        } else {
          GoBankrupt(PlayerPayee(property.owner));
        }
      } else if !isOwned && canAffordPurchase {
        if coin == 1 {
          BuyProperty(property);
        }
      }
    }

    /** Pays `payment` to `recipient` when the cash covers it, and does nothing otherwise. */
    method Pay(payment: int, recipient: Payee)
      modifies this, recipient.Holder()
      ensures State() == old(State()).(cash := cash)
      ensures recipient.PlayerPayee? && recipient.player != this ==>
        recipient.player.State() == old(recipient.player.State()).(cash := recipient.player.cash)
      ensures if old(cash) >= payment && recipient.Holder() != this then
          cash == old(cash) - payment && recipient.Cash() == old(recipient.Cash()) + payment
        else
          cash == old(cash) && recipient.Cash() == old(recipient.Cash())
      ensures cash + recipient.Cash() == old(cash + recipient.Cash())
    {
      if cash >= payment {
        cash := cash - payment;
        match recipient
        case PlayerPayee(p) => p.cash := p.cash + payment;
        case BankPayee(b) => b.cash := b.cash + payment;
      }
    }

    method BuyProperty(property: Property)
      modifies this, property
      ensures State() == Bought(old(State()), property)
      ensures property.Facts() == old(property.Facts()).(owner := this)
    {
      properties := properties + [property];
      cash := cash - property.price;
      property.owner := this;
      var _ := CountMonopolies();
    }

    method CountMonopolies() returns (count: int)
      modifies this
      ensures State() == Recounted(old(State()))
      ensures count == |monopolies|
    {
      ghost var hs, credited := Holdings(properties), monopolies;
      var countdown: map<Group, int> := map[];
      var i := 0;
      while i < |properties|
        invariant 0 <= i <= |properties| && properties == old(properties)
        invariant Tally(countdown, monopolies) == Run(credited, hs[..i])
        invariant |monopolies| >= |credited| && ownsMonopoly == (old(ownsMonopoly) || |monopolies| > |credited|)
        invariant cash == old(cash) && position == old(position) && jailCards == old(jailCards)
        invariant jailTurns == old(jailTurns) && bankrupt == old(bankrupt)
      {
        var p := properties[i];
        assert hs[..i + 1][..i] == hs[..i];
        assert Run(credited, hs[..i + 1]) == Step(Run(credited, hs[..i]), Holding(p.monopoly, p.monopolySize));
        if p.monopoly !in monopolies {
          if p.monopoly in countdown {
            countdown := countdown[p.monopoly := countdown[p.monopoly] - 1];
          } else {
            countdown := countdown[p.monopoly := p.monopolySize - 1];
          }
          if countdown[p.monopoly] == 0 {
            ownsMonopoly := true;
            monopolies := monopolies + [p.monopoly];
          }
        }
        i := i + 1;
      }
      assert hs[..i] == hs;
      count := |monopolies|;
    }

    /** The first half of `buy_building`: the properties a building may be put on. */
    method PurchaseOptions() returns (options: seq<Property>)
      ensures options == Options(properties, monopolies, cash)
    {
      options := [];
      var i := 0;
      while i < |properties|
        invariant 0 <= i <= |properties|
        invariant options == Options(properties[..i], monopolies, cash)
      {
        var p := properties[i];
        assert properties[..i + 1][..i] == properties[..i];
        if p.monopoly in monopolies && p.kind == Street && p.buildCost <= cash {
          if p.nBuildings < MaxBuildings {
            options := options + [p];
          }
        }
        i := i + 1;
      }
      assert properties[..i] == properties;
    }

    /** Puts one building on the purchase option at index `pick` (the random
        choice), when there is an option at all. */
    method BuyBuilding(pick: int)
      requires Options(properties, monopolies, cash) != [] ==> 0 <= pick < |Options(properties, monopolies, cash)|
      modifies this, properties
      ensures old(Options(properties, monopolies, cash)) == [] ==>
        State() == old(State()) && forall r :: r in properties ==> r.Facts() == old(r.Facts())
      ensures old(Options(properties, monopolies, cash)) != [] ==>
        var q := old(Options(properties, monopolies, cash)[pick]);
        && q in properties && q.kind == Street && q.monopoly in monopolies && q.buildCost <= old(cash)
        && State() == old(State()).(cash := old(cash) - q.buildCost)
        && 0 <= cash
        && q.nBuildings == old(q.nBuildings) + 1 <= MaxBuildings
        && q.rentNow == (if 1 <= q.nBuildings then q.rents.ForCount(q.nBuildings) else old(q.rentNow))
        && q.Facts() == old(q.Facts()).(nBuildings := q.nBuildings, rentNow := q.rentNow)
        && forall r :: r in properties && r != q ==> r.Facts() == old(r.Facts())
    {
      var options := PurchaseOptions();
      OptionsMeaning(properties, monopolies, cash);
      if |options| > 0 {
        var p := options[pick];
        assert p in options;
        assert p in properties && CanBuild(p, monopolies, cash);
        ghost var before := p.Facts();
        p.nBuildings := p.nBuildings + 1;
        cash := cash - p.buildCost;
        if p.nBuildings == 1 {
          p.rentNow := p.rents.house1;
        } else if p.nBuildings == 2 {
          p.rentNow := p.rents.house2;
        } else if p.nBuildings == 3 {
          p.rentNow := p.rents.house3;
        } else if p.nBuildings == 4 {
          p.rentNow := p.rents.house4;
        } else if p.nBuildings == 5 {
          p.rentNow := p.rents.hotel;
        }
        assert p.Facts() == before.(nBuildings := before.nBuildings + 1, rentNow := p.rentNow);
        assert p.rentNow == if 1 <= p.nBuildings then p.rents.ForCount(p.nBuildings) else before.rentNow;
        assert forall r :: r in properties && r != p ==> r.Facts() == old(r.Facts());
      }
    }

    method GoToJail()
      modifies this
      ensures State() == Jailed(old(State()))
    {
      position := JailPosition;
      jailTurns := JailSentence;
    }

    /** Returns whether the player stays in jail. */
    method ChooseJailStrategy(rolledDouble: bool) returns (stayInJail: bool)
      modifies this
      ensures State() == JailChoice(old(State()), rolledDouble)
      ensures stayInJail == StaysInJail(old(State()), rolledDouble)
    {
      if rolledDouble {
        jailTurns := 0;
        return false;
      }
      if jailCards > 0 {
        jailTurns := 0;
        jailCards := jailCards - 1;
        return false;
      }
      if cash >= JailFine {
        jailTurns := 0;
        cash := cash - JailFine;
        return false;
      }
      jailTurns := jailTurns - 1;
      return true;
    }

    /** Marks the player bankrupt; nothing is handed to `creditor`. */
    method GoBankrupt(creditor: Payee)
      modifies this
      ensures State() == old(State()).(bankrupt := true)
    {
      bankrupt := true;
    }
  }

  /** From a square on the board, a move of at most one lap lands on square
      (position + roll) mod 40, and earns the Go bonus exactly when it passes or
      reaches Go; nothing but position and cash changes. */
  lemma MovedFacts(s: PlayerState, roll: int)
    requires 0 <= s.position < BoardSize && 0 <= roll <= BoardSize
    ensures Moved(s, roll).position == (s.position + roll) % BoardSize
    ensures 0 <= Moved(s, roll).position < BoardSize
    ensures Moved(s, roll).cash == s.cash + (if s.position + roll >= BoardSize then GoBonus else 0)
    ensures Moved(s, roll) == s.(position := Moved(s, roll).position, cash := Moved(s, roll).cash)
  {
  }

  /** The jail strategy in priority order: a double frees the player, else a
      card is spent, else the fine is paid, and only a player with none of the
      three serves one more turn. Only a player who stays keeps both cash and
      cards, and cash that was not negative stays not negative. */
  lemma JailChoiceOrder(s: PlayerState, rolledDouble: bool)
    ensures !StaysInJail(s, rolledDouble) ==> JailChoice(s, rolledDouble).jailTurns == 0
    ensures rolledDouble ==> JailChoice(s, rolledDouble) == s.(jailTurns := 0)
    ensures !rolledDouble && s.jailCards > 0 ==>
      JailChoice(s, rolledDouble) == s.(jailTurns := 0, jailCards := s.jailCards - 1)
    ensures !rolledDouble && s.jailCards <= 0 && s.cash >= JailFine ==>
      JailChoice(s, rolledDouble) == s.(jailTurns := 0, cash := s.cash - JailFine)
    ensures StaysInJail(s, rolledDouble) ==> JailChoice(s, rolledDouble) == s.(jailTurns := s.jailTurns - 1)
    ensures 0 <= s.cash ==> 0 <= JailChoice(s, rolledDouble).cash
    ensures JailChoice(s, rolledDouble).position == s.position
  {
  }

  /** `visit_property` pays rent exactly on an owned, unmortgaged property the
      player can cover, goes bankrupt exactly when it cannot, buys exactly on
      an unowned affordable property with coin 1, and otherwise does nothing;
      whether the owner is the player itself plays no part. */
  lemma DecideCases(owned: bool, mortgaged: bool, cash: int, quotedRent: int, price: int, coin: int)
    ensures Decide(owned, mortgaged, cash, quotedRent, price, coin) == PayRent <==> owned && !mortgaged && cash >= quotedRent
    ensures Decide(owned, mortgaged, cash, quotedRent, price, coin) == Bankruptcy <==> owned && !mortgaged && cash < quotedRent
    ensures Decide(owned, mortgaged, cash, quotedRent, price, coin) == Purchase <==> !owned && cash >= price && coin == 1
    ensures Decide(owned, mortgaged, cash, quotedRent, price, coin) == Decline <==> !owned && cash >= price && coin != 1
    ensures Decide(owned, mortgaged, cash, quotedRent, price, coin) == Ignore <==>
      (owned && mortgaged) || (!owned && cash < price)
  {
  }

  /** Buying appends exactly the bought property, debits its price without
      checking that it is affordable, and otherwise changes only the monopoly
      record, which the recount only extends. */
  lemma BoughtFacts(s: PlayerState, property: Property)
    ensures Bought(s, property).properties == s.properties + [property]
    ensures Bought(s, property).cash == s.cash - property.price
    ensures s.monopolies <= Bought(s, property).monopolies
    ensures s.ownsMonopoly ==> Bought(s, property).ownsMonopoly
    ensures Bought(s, property) == s.(properties := s.properties + [property], cash := s.cash - property.price,
      monopolies := Bought(s, property).monopolies, ownsMonopoly := Bought(s, property).ownsMonopoly)
  {
    RunExtends(s.monopolies, Holdings(s.properties + [property]));
  }

  /** The recount keeps the groups already credited as a prefix, appends only
      groups not credited before, never repeats a group, and only ever raises
      the monopoly flag. A group it credits is one held in a quantity of at
      least the size its first property declares. */
  lemma RecountedFacts(s: PlayerState)
    ensures s.monopolies <= Recounted(s).monopolies
    ensures forall k :: |s.monopolies| <= k < |Recounted(s).monopolies| ==> Recounted(s).monopolies[k] !in s.monopolies
    ensures Distinct(s.monopolies) ==> Distinct(Recounted(s).monopolies)
    ensures s.ownsMonopoly ==> Recounted(s).ownsMonopoly
    ensures Recounted(s).ownsMonopoly <==> s.ownsMonopoly || |Recounted(s).monopolies| > |s.monopolies|
    ensures forall g :: g in Recounted(s).monopolies <==> g in s.monopolies || Earned(g, Holdings(s.properties))
    ensures Recounted(s) == s.(monopolies := Recounted(s).monopolies, ownsMonopoly := Recounted(s).ownsMonopoly)
  {
    RunExtends(s.monopolies, Holdings(s.properties));
    RunInvariant(s.monopolies, Holdings(s.properties));
  }

  /** Counting monopolies twice with the same properties is counting once. */
  lemma RecountIdempotent(s: PlayerState)
    ensures Recounted(Recounted(s)) == Recounted(s)
  {
    RunIdempotent(s.monopolies, Holdings(s.properties));
  }

  /** How many of the properties belong to group `g`. */
  function GroupCount(g: Group, ps: seq<Property>): nat
  {
    Occurrences(g, Holdings(ps))
  }

  /** When every property of group `g` in the list declares the same size of at
      least one, a recount credits an uncredited `g` exactly when the player
      holds at least that many properties of `g`. */
  lemma RecountCreditsHeldGroup(s: PlayerState, g: Group, size: int)
    requires 1 <= size && g !in s.monopolies
    requires forall i :: 0 <= i < |s.properties| && s.properties[i].monopoly == g ==> s.properties[i].monopolySize == size
    ensures g in Recounted(s).monopolies <==> GroupCount(g, s.properties) >= size
  {
    CreditedIffHoldsGroup(s.monopolies, Holdings(s.properties), g, size);
  }
}
