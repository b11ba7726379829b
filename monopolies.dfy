/** The bookkeeping behind `Player.count_monopolies` (player.py), on values.

    The method walks the player's property list once, keeping a countdown per
    monopoly group that is not yet credited to the player: the first property of
    a group seen starts its countdown at the group size minus one, every later
    one lowers it by one, and the group is credited (appended to the player's
    monopoly list) the moment its countdown is exactly zero. Groups already
    credited are skipped. `Run` is that walk; `Earned` is an independent
    description of which groups it credits, and the lemmas connect the two. */
module Monopolies {

  /** A monopoly group identifier (the colour name in the board file). */
  type Group = string

  /** One owned property as the count sees it: its group and the group size it declares. */
  datatype Holding = Holding(group: Group, size: int)

  /** The state carried through the walk: the local countdown per group and the
      player's monopoly list as extended so far. */
  datatype Tally = Tally(countdown: map<Group, int>, credited: seq<Group>)

  /** One iteration of the walk, for one property. */
  function Step(t: Tally, h: Holding): Tally
  {
    if h.group in t.credited then t
    else
      var left := if h.group in t.countdown then t.countdown[h.group] - 1 else h.size - 1;
      Tally(t.countdown[h.group := left], if left == 0 then t.credited + [h.group] else t.credited)
  }

  /** The walk over `hs` starting from the monopoly list `credited` and an empty countdown. */
  function Run(credited: seq<Group>, hs: seq<Holding>): Tally
    decreases |hs|
  {
    if hs == [] then Tally(map[], credited)
    else Step(Run(credited, hs[..|hs| - 1]), hs[|hs| - 1])
  }

  function GroupsOf(hs: seq<Holding>): (gs: seq<Group>)
    ensures |gs| == |hs| && forall i :: 0 <= i < |hs| ==> gs[i] == hs[i].group
  {
    seq(|hs|, i requires 0 <= i < |hs| => hs[i].group)
  }

  /** How many of the holdings belong to group `g`. */
  function Occurrences(g: Group, hs: seq<Holding>): nat
  {
    multiset(GroupsOf(hs))[g]
  }

  /** The size declared by the first holding of group `g`, or 0 if there is none. */
  function FirstSize(g: Group, hs: seq<Holding>): int
  {
    if hs == [] then 0
    else if hs[0].group == g then hs[0].size
    else FirstSize(g, hs[1..])
  }

  /** Group `g` is credited by a walk over `hs` that starts with `g` uncredited:
      the size its first holding declares is at least one and at most the number
      of holdings of `g`. */
  predicate Earned(g: Group, hs: seq<Holding>)
  {
    1 <= FirstSize(g, hs) <= Occurrences(g, hs)
  }

  predicate Distinct<T(==)>(s: seq<T>)
  {
    forall i, j :: 0 <= i < j < |s| ==> s[i] != s[j]
  }

  lemma {:induction false} GroupsOfAppend(a: seq<Holding>, b: seq<Holding>)
    ensures GroupsOf(a + b) == GroupsOf(a) + GroupsOf(b)
  {
    assert |GroupsOf(a + b)| == |GroupsOf(a) + GroupsOf(b)|;
    forall i | 0 <= i < |a + b| ensures GroupsOf(a + b)[i] == (GroupsOf(a) + GroupsOf(b))[i] {
      if i >= |a| {
        assert (a + b)[i] == b[i - |a|];
      }
    }
  }

  lemma OccurrencesAppend(g: Group, hs: seq<Holding>, h: Holding)
    ensures Occurrences(g, hs + [h]) == Occurrences(g, hs) + (if h.group == g then 1 else 0)
  {
    GroupsOfAppend(hs, [h]);
    assert GroupsOf([h]) == [h.group];
  }

  /** Appending a holding changes the first declared size only when the group had none. */
  lemma {:induction false} FirstSizeAppend(g: Group, hs: seq<Holding>, h: Holding)
    ensures FirstSize(g, hs + [h]) ==
      if Occurrences(g, hs) > 0 then FirstSize(g, hs) else if h.group == g then h.size else 0
  {
    if hs == [] {
      assert Occurrences(g, hs) == 0;
      assert [] + [h] == [h];
    } else {
      assert (hs + [h])[1..] == hs[1..] + [h];
      assert hs == [hs[0]] + hs[1..];
      GroupsOfAppend([hs[0]], hs[1..]);
      assert GroupsOf([hs[0]]) == [hs[0].group];
      assert Occurrences(g, hs) == (if hs[0].group == g then 1 else 0) + Occurrences(g, hs[1..]);
      FirstSizeAppend(g, hs[1..], h);
    }
  }

  /** The walk as one group `g` sees it, in terms of the reference
      definitions: whether `g` ends up credited, whether it has a countdown,
      and the countdown's value. */
  lemma {:induction false} RunAt(c: seq<Group>, hs: seq<Holding>, g: Group)
    ensures g in Run(c, hs).credited <==> g in c || Earned(g, hs)
    ensures g in Run(c, hs).countdown <==> g !in c && Occurrences(g, hs) > 0
    ensures g in Run(c, hs).countdown && g !in Run(c, hs).credited ==>
      Run(c, hs).countdown[g] == FirstSize(g, hs) - Occurrences(g, hs)
    decreases |hs|
  {
    if hs != [] {
      var pre, h := hs[..|hs| - 1], hs[|hs| - 1];
      assert hs == pre + [h];
      RunAt(c, pre, g);
      OccurrencesAppend(g, pre, h);
      FirstSizeAppend(g, pre, h);
    } else {
      assert Occurrences(g, hs) == 0;
    }
  }

  /** The loop invariant of the walk, for every group at once. */
  lemma RunInvariant(c: seq<Group>, hs: seq<Holding>)
    ensures forall g :: g in Run(c, hs).credited <==> g in c || Earned(g, hs)
    ensures forall g :: g in Run(c, hs).countdown <==> g !in c && Occurrences(g, hs) > 0
    ensures forall g :: g in Run(c, hs).countdown && g !in Run(c, hs).credited ==>
      Run(c, hs).countdown[g] == FirstSize(g, hs) - Occurrences(g, hs)
  {
    forall g
      ensures g in Run(c, hs).credited <==> g in c || Earned(g, hs)
      ensures g in Run(c, hs).countdown <==> g !in c && Occurrences(g, hs) > 0
      ensures g in Run(c, hs).countdown && g !in Run(c, hs).credited ==>
        Run(c, hs).countdown[g] == FirstSize(g, hs) - Occurrences(g, hs)
    {
      RunAt(c, hs, g);
    }
  }

  /** The walk only appends, and only groups not yet in the list: the list it
      starts from is a prefix of the result, nothing appended was in it, and a
      list without repetitions stays without repetitions. */
  lemma {:induction false} RunExtends(c: seq<Group>, hs: seq<Holding>)
    ensures c <= Run(c, hs).credited
    ensures forall k :: |c| <= k < |Run(c, hs).credited| ==> Run(c, hs).credited[k] !in c
    ensures Distinct(c) ==> Distinct(Run(c, hs).credited)
    decreases |hs|
  {
    if hs != [] {
      RunExtends(c, hs[..|hs| - 1]);
    }
  }

  /** A group earned by some holdings stays earned when one more is added. */
  lemma EarnedAppend(g: Group, hs: seq<Holding>, h: Holding)
    requires Earned(g, hs)
    ensures Earned(g, hs + [h])
  {
    OccurrencesAppend(g, hs, h);
    FirstSizeAppend(g, hs, h);
  }

  /** A walk that starts with every earned group already credited appends nothing. */
  lemma {:induction false} RunCreditsNothingNew(c: seq<Group>, hs: seq<Holding>)
    requires forall g :: Earned(g, hs) ==> g in c
    ensures Run(c, hs).credited == c
    decreases |hs|
  {
    if hs != [] {
      var pre, h := hs[..|hs| - 1], hs[|hs| - 1];
      assert hs == pre + [h];
      forall g | Earned(g, pre) ensures g in c {
        EarnedAppend(g, pre, h);
      }
      RunCreditsNothingNew(c, pre);
      RunInvariant(c, pre);
      OccurrencesAppend(h.group, pre, h);
      FirstSizeAppend(h.group, pre, h);
    }
  }

  /** Recounting with the same holdings credits nothing new. */
  lemma RunIdempotent(c: seq<Group>, hs: seq<Holding>)
    ensures Run(Run(c, hs).credited, hs).credited == Run(c, hs).credited
  {
    RunInvariant(c, hs);
    RunCreditsNothingNew(Run(c, hs).credited, hs);
  }

  lemma {:induction false} FirstSizeUniform(g: Group, hs: seq<Holding>, size: int)
    requires forall i :: 0 <= i < |hs| && hs[i].group == g ==> hs[i].size == size
    ensures FirstSize(g, hs) == if Occurrences(g, hs) > 0 then size else 0
  {
    if hs != [] {
      assert hs == [hs[0]] + hs[1..];
      GroupsOfAppend([hs[0]], hs[1..]);
      assert GroupsOf([hs[0]]) == [hs[0].group];
      assert Occurrences(g, hs) == (if hs[0].group == g then 1 else 0) + Occurrences(g, hs[1..]);
      FirstSizeUniform(g, hs[1..], size);
    }
  }

  /** When every property of a group declares the same size of at least one, an
      uncredited group is credited exactly when the player holds at least that
      many of its properties. */
  lemma CreditedIffHoldsGroup(c: seq<Group>, hs: seq<Holding>, g: Group, size: int)
    requires 1 <= size
    requires forall i :: 0 <= i < |hs| && hs[i].group == g ==> hs[i].size == size
    requires g !in c
    ensures g in Run(c, hs).credited <==> Occurrences(g, hs) >= size
  {
    RunInvariant(c, hs);
    FirstSizeUniform(g, hs, size);
  }
}
