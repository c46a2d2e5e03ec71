/** The strategy card of one SCARF domain: its threat-level badge, its score bar,
    and the accordion of strategies, of which at most one is open at a time. */
module StrategyAccordion {

  datatype Option<T> = None | Some(value: T)

  /** The fields of a strategy and of a SCARF domain that the card's logic uses. */
  datatype Strategy = Strategy(id: string)
  datatype ScarfDomain = ScarfDomain(id: string, strategies: seq<Strategy>)

  // ---------------------------------------------------------------------
  // Threat level

  datatype ThreatLevel = ThreatLevel(labelText: string, color: string)

  /** The five levels, from the lowest threat to the highest. */
  const ThreatLevels: seq<ThreatLevel> := [
    ThreatLevel("낮음", "text-green-600"),
    ThreatLevel("경미", "text-blue-600"),
    ThreatLevel("보통", "text-yellow-600"),
    ThreatLevel("높음", "text-orange-600"),
    ThreatLevel("매우 높음", "text-red-600")
  ]

  /** The inclusive upper bound of each level but the last. */
  const BandUpperBounds: seq<real> := [1.5, 2.5, 3.5, 4.5]

  /** The badge for a domain score: five upper-inclusive bands, checked from the lowest. */
  function GetThreatLevel(score: real): (t: ThreatLevel)
    ensures t in ThreatLevels
    ensures t == ThreatLevels[0] <==> score <= 1.5
    ensures t == ThreatLevels[1] <==> 1.5 < score <= 2.5
    ensures t == ThreatLevels[2] <==> 2.5 < score <= 3.5
    ensures t == ThreatLevels[3] <==> 3.5 < score <= 4.5
    ensures t == ThreatLevels[4] <==> 4.5 < score
  {
    if score <= 1.5 then ThreatLevel("낮음", "text-green-600")
    else if score <= 2.5 then ThreatLevel("경미", "text-blue-600")
    else if score <= 3.5 then ThreatLevel("보통", "text-yellow-600")
    else if score <= 4.5 then ThreatLevel("높음", "text-orange-600")
    else ThreatLevel("매우 높음", "text-red-600")
  }

  /** How many of the given bounds the score exceeds. */
  function BoundsExceeded(bounds: seq<real>, score: real): (n: nat)
    ensures n <= |bounds|
  {
    if bounds == [] then 0
    else (if bounds[0] < score then 1 else 0) + BoundsExceeded(bounds[1..], score)
  }

  /** Position of a level in `ThreatLevels`: 0 for the lowest, 4 for the highest. */
  function Rank(t: ThreatLevel): (k: nat)
    requires t in ThreatLevels
    ensures k < |ThreatLevels| && ThreatLevels[k] == t
  {
    if t == ThreatLevels[0] then 0
    else if t == ThreatLevels[1] then 1
    else if t == ThreatLevels[2] then 2
    else if t == ThreatLevels[3] then 3
    else 4
  }

  /** The if-chain agrees with counting the band bounds the score is above. */
  lemma ThreatLevelCountsBounds(score: real)
    ensures Rank(GetThreatLevel(score)) == BoundsExceeded(BandUpperBounds, score)
    ensures GetThreatLevel(score) == ThreatLevels[BoundsExceeded(BandUpperBounds, score)]
  {
    var b := BandUpperBounds;
    assert b[1..] == [2.5, 3.5, 4.5] && b[2..] == [3.5, 4.5] && b[3..] == [4.5] && b[4..] == [];
    assert BoundsExceeded(b[3..], score) == if 4.5 < score then 1 else 0;
    assert BoundsExceeded(b[2..], score) == (if 3.5 < score then 1 else 0) + BoundsExceeded(b[3..], score);
    assert BoundsExceeded(b[1..], score) == (if 2.5 < score then 1 else 0) + BoundsExceeded(b[2..], score);
  }

  /** A higher score never yields a lower level. */
  lemma ThreatLevelMonotone(lo: real, hi: real)
    requires lo <= hi
    ensures Rank(GetThreatLevel(lo)) <= Rank(GetThreatLevel(hi))
  {
  }

  // ---------------------------------------------------------------------
  // Score bar

  /** Width of the score bar, in percent of the track; the score is not clamped. */
  function ScoreBarWidth(score: real): (w: real)
    ensures score == 0.0 ==> w == 0.0
    ensures score == 5.0 ==> w == 100.0
    ensures 0.0 <= score <= 5.0 ==> 0.0 <= w <= 100.0
    ensures score > 5.0 ==> w > 100.0
    ensures score < 0.0 ==> w < 0.0
  {
    (score / 5.0) * 100.0
  }

  // ---------------------------------------------------------------------
  // Which strategy is expanded

  /** The state the card starts in: a high-priority card opens its first strategy. */
  function InitialExpanded(domain: ScarfDomain, isHighPriority: bool): (e: Option<string>)
    ensures e != None <==> isHighPriority && |domain.strategies| > 0
    ensures e != None ==> e == Some(domain.strategies[0].id)
  {
    if isHighPriority && |domain.strategies| > 0 then Some(domain.strategies[0].id) else None
  }

  /** Whether the panel of strategy `id` is rendered open; a state opens one panel at most. */
  predicate IsExpanded(expanded: Option<string>, id: string): (open: bool)
    ensures open ==> forall other :: other != id ==> expanded != Some(other)
    ensures expanded == None ==> !open
  {
    expanded == Some(id)
  }

  /** The state after clicking the header of strategy `id`: its panel flips, and no
      other panel is left open. */
  function Toggled(expanded: Option<string>, id: string): (r: Option<string>)
    ensures IsExpanded(r, id) <==> !IsExpanded(expanded, id)
    ensures r != None ==> IsExpanded(r, id)
  {
    if expanded == Some(id) then None else Some(id)
  }

  /** Clicking an open strategy closes it and every panel; clicking a closed one opens
      it and closes every other. */
  lemma ToggleOpensOnlyClicked(expanded: Option<string>, id: string)
    ensures IsExpanded(Toggled(expanded, id), id) <==> !IsExpanded(expanded, id)
    ensures forall other :: other != id ==> !IsExpanded(Toggled(expanded, id), other)
  {
  }

  /** Clicking the same strategy twice restores the state. */
  lemma ToggleTwiceRestores(expanded: Option<string>, id: string)
    requires expanded == None || IsExpanded(expanded, id)
    ensures Toggled(Toggled(expanded, id), id) == expanded
  {
  }

  /** With another strategy open, two clicks on `id` leave every strategy closed, so the
      round trip above needs its precondition. */
  lemma ToggleTwiceClosesOther(other: string, id: string)
    requires other != id
    ensures Toggled(Toggled(Some(other), id), id) == None
  {
  }

  /** Number of strategies of the list whose panel is open. */
  function OpenPanels(strategies: seq<Strategy>, expanded: Option<string>): (n: nat)
    ensures n <= |strategies|
  {
    if strategies == [] then 0
    else (if IsExpanded(expanded, strategies[0].id) then 1 else 0) + OpenPanels(strategies[1..], expanded)
  }

  predicate DistinctIds(strategies: seq<Strategy>)
  {
    forall i, j :: 0 <= i < j < |strategies| ==> strategies[i].id != strategies[j].id
  }

  /** With distinct strategy ids, at most one panel is open, and one is open exactly
      when the state names a strategy of the list. */
  lemma {:induction false} AtMostOneOpen(strategies: seq<Strategy>, expanded: Option<string>)
    requires DistinctIds(strategies)
    ensures OpenPanels(strategies, expanded) <= 1
    ensures OpenPanels(strategies, expanded) == 1 <==> exists s :: s in strategies && IsExpanded(expanded, s.id)
  {
    if strategies != [] {
      var rest := strategies[1..];
      assert DistinctIds(rest);
      AtMostOneOpen(rest, expanded);
      if IsExpanded(expanded, strategies[0].id) {
        NoneOpen(rest, expanded);
      }
      assert forall s :: s in strategies <==> s == strategies[0] || s in rest;
    }
  }

  /** No panel is open when the state names none of the listed strategies. */
  lemma {:induction false} NoneOpen(strategies: seq<Strategy>, expanded: Option<string>)
    requires forall s :: s in strategies ==> !IsExpanded(expanded, s.id)
    ensures OpenPanels(strategies, expanded) == 0
  {
    if strategies != [] {
      assert strategies[0] in strategies;
      NoneOpen(strategies[1..], expanded);
    }
  }

  /** A fresh card shows the first strategy open when it is high priority and has one,
      and no strategy open otherwise. */
  lemma InitiallyOpen(domain: ScarfDomain, isHighPriority: bool)
    requires DistinctIds(domain.strategies)
    ensures OpenPanels(domain.strategies, InitialExpanded(domain, isHighPriority)) ==
      if isHighPriority && |domain.strategies| > 0 then 1 else 0
    ensures isHighPriority && |domain.strategies| > 0 ==>
      IsExpanded(InitialExpanded(domain, isHighPriority), domain.strategies[0].id)
  {
    AtMostOneOpen(domain.strategies, InitialExpanded(domain, isHighPriority));
    if isHighPriority && |domain.strategies| > 0 {
      assert domain.strategies[0] in domain.strategies;
    }
  }

  /** The card's accordion state: the id of the open strategy, if any. */
  class Accordion {
    const domain: ScarfDomain
    var expanded: Option<string>

    constructor (domain: ScarfDomain, isHighPriority: bool)
      ensures this.domain == domain
      ensures expanded == InitialExpanded(domain, isHighPriority)
    {
      this.domain := domain;
      expanded := InitialExpanded(domain, isHighPriority);
    }

    /** The click handler of the header of strategy `id`. */
    method Click(id: string)
      modifies this
      ensures expanded == Toggled(old(expanded), id)
      ensures old(expanded) == Some(id) ==> expanded == None
      ensures old(expanded) != Some(id) ==> expanded == Some(id)
    {
      if expanded == Some(id) {
        expanded := None;
      } else {
        expanded := Some(id);
      }
    }
  }
}
