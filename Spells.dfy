/** The concrete cards of cards_impl.py: their names and costs, and what
    playing the ones with an effect does to the deck, the hand, the
    battlefield and life totals. Each effect first does the card's ordinary
    `play` (cards.py) and then searches or scans a zone and moves what it
    finds. */
module Spells {
  import opened Optional
  import opened Mana
  import opened Orderings
  import opened Cards

  // ---------------------------------------------------------------------
  // Cultivate: search the deck for up to two basic lands
  // ---------------------------------------------------------------------

  /** A card Cultivate may find: a land whose types include "Basic Land". */
  predicate IsBasicLand(c: Card)
  {
    c.kind == Kind.Land && "Basic Land" in c.types
  }

  /** Positions, in increasing order, of the first `limit` basic lands at or
      after position `from`. */
  function BasicIndices(deck: seq<Card>, from: nat, limit: nat): (f: seq<nat>)
    requires from <= |deck|
    ensures |f| <= limit
    ensures forall k :: 0 <= k < |f| ==> from <= f[k] < |deck| && IsBasicLand(deck[f[k]])
    ensures forall k, l :: 0 <= k < l < |f| ==> f[k] < f[l]
    decreases |deck| - from
  {
    if from == |deck| || limit == 0 then []
    else if IsBasicLand(deck[from]) then [from] + BasicIndices(deck, from + 1, limit - 1)
    else BasicIndices(deck, from + 1, limit)
  }

  /** No basic land is skipped: every basic land at or after `from` comes
      either in the result or after all of it, and when fewer than `limit`
      were found there is no other. */
  lemma {:induction false} BasicIndicesAreTheFirst(deck: seq<Card>, from: nat, limit: nat, j: nat)
    requires from <= j < |deck| && IsBasicLand(deck[j])
    ensures var f := BasicIndices(deck, from, limit);
      j in f || (|f| == limit && limit > 0 && j > f[|f| - 1]) || limit == 0
    decreases |deck| - from
  {
    if limit > 0 {
      var f := BasicIndices(deck, from, limit);
      if from == j {
        assert f == [j] + BasicIndices(deck, j + 1, limit - 1);
      } else if IsBasicLand(deck[from]) {
        var g := BasicIndices(deck, from + 1, limit - 1);
        BasicIndicesAreTheFirst(deck, from + 1, limit - 1, j);
        assert f == [from] + g;
      } else {
        BasicIndicesAreTheFirst(deck, from + 1, limit, j);
      }
    }
  }

  /** Where Cultivate's search sends the deck's cards. */
  datatype Search = Search(remaining: seq<Card>, toBattlefield: seq<Card>, toHand: seq<Card>)

  /** Cultivate's search of a deck: with two basic lands found, the one later
      in the deck goes to the battlefield and the earlier one to the hand;
      with one, it goes to the battlefield; the rest of the deck keeps its
      order. */
  function CultivateSearch(deck: seq<Card>): Search
  {
    var f := BasicIndices(deck, 0, 2);
    if |f| == 0 then Search(deck, [], [])
    else if |f| == 1 then Search(RemoveAt(deck, f[0]), [deck[f[0]]], [])
    else Search(RemoveAt(RemoveAt(deck, f[1]), f[0]), [deck[f[1]]], [deck[f[0]]])
  }

  /** The search moves cards and never creates or loses one. */
  lemma CultivateConservesCards(deck: seq<Card>)
    ensures var r := CultivateSearch(deck);
      multiset(deck) == multiset(r.remaining) + multiset(r.toBattlefield) + multiset(r.toHand)
  {
    var f := BasicIndices(deck, 0, 2);
    if |f| == 1 {
      RemoveAtMultiset(deck, f[0]);
    } else if |f| == 2 {
      RemoveAtMultiset(deck, f[1]);
      RemoveAtMultiset(RemoveAt(deck, f[1]), f[0]);
    }
  }

  /** The search takes at most two cards, all of them basic lands, one of them
      to the battlefield whenever any is found, and leaves no basic land
      behind unless it found two. */
  lemma CultivateFindsBasicLands(deck: seq<Card>)
    ensures var r := CultivateSearch(deck);
      && |r.toBattlefield| <= 1 && |r.toHand| <= |r.toBattlefield|
      && (forall c :: c in r.toBattlefield + r.toHand ==> IsBasicLand(c))
      && (|r.toHand| == 0 ==> forall c :: c in r.remaining ==> !IsBasicLand(c))
  {
    var f := BasicIndices(deck, 0, 2);
    var r := CultivateSearch(deck);
    if |r.toHand| == 0 {
      forall c | c in r.remaining ensures !IsBasicLand(c) {
        if IsBasicLand(c) {
          var j :| 0 <= j < |r.remaining| && r.remaining[j] == c;
          var j' := if |f| == 1 && j >= f[0] then j + 1 else j;
          assert deck[j'] == c;
          BasicIndicesAreTheFirst(deck, 0, 2, j');
          assert false;
        }
      }
    }
  }

  /** One step of the scan for basic lands keeps the positions found so far,
      followed by those still to find, equal to the full answer. */
  lemma ScanStep(deck: seq<Card>, found: seq<nat>, i: nat)
    requires i < |deck| && |found| < 2
    requires found + BasicIndices(deck, i, 2 - |found|) == BasicIndices(deck, 0, 2)
    ensures var found' := if IsBasicLand(deck[i]) then found + [i] else found;
      found' + BasicIndices(deck, i + 1, 2 - |found'|) == BasicIndices(deck, 0, 2)
  {
  }

  /** The search loop of Cultivate: scan the deck in order and stop at the
      second basic land. */
  method FindBasicLands(deck: seq<Card>) returns (found: seq<nat>)
    ensures found == BasicIndices(deck, 0, 2)
  {
    found := [];
    var i := 0;
    while i < |deck|
      invariant 0 <= i <= |deck| && |found| < 2
      invariant found + BasicIndices(deck, i, 2 - |found|) == BasicIndices(deck, 0, 2)
    {
      ghost var before := found;
      if IsBasicLand(deck[i]) {
        found := found + [i];
        ScanStep(deck, before, i);
        if |found| >= 2 {
          break;
        }
      } else {
        ScanStep(deck, before, i);
      }
      i := i + 1;
    }
  }

  /** Pop the found lands out of the deck, highest position first, so that
      the lower position is still valid; the popped cards come out in that
      order. */
  method PopFound(deck: seq<Card>, found: seq<nat>) returns (lands: seq<Card>, rest: seq<Card>)
    requires found == BasicIndices(deck, 0, 2)
    ensures lands == CultivateSearch(deck).toBattlefield + CultivateSearch(deck).toHand
    ensures rest == CultivateSearch(deck).remaining
  {
    var order := if |found| == 2 then [found[1], found[0]] else found;
    lands := [];
    rest := deck;
    var k := 0;
    while k < |order|
      invariant 0 <= k <= |order| && |lands| == k
      invariant forall j :: 0 <= j < k ==> lands[j] == deck[order[j]]
      invariant k == 0 ==> rest == deck
      invariant k == 1 ==> rest == RemoveAt(deck, order[0])
      invariant k == 2 ==> rest == RemoveAt(RemoveAt(deck, order[0]), order[1])
    {
      var index := order[k];
      lands := lands + [rest[index]];
      rest := RemoveAt(rest, index);
      k := k + 1;
    }
  }

  /** How many of the popped lands go onto the battlefield: the first, if
      there is one. */
  function OntoBattlefield(lands: seq<Card>): nat
  {
    if |lands| > 0 then 1 else 0
  }

  /** Where the popped lands go: the first onto the battlefield, tapped and
      owned by the caster; the second, if any, to the end of the hand. */
  method PlaceLands(lands: seq<Card>, caster: Player, game: Game)
    requires |lands| <= 2
    modifies game`battlefield, caster`hand
    modifies lands[..OntoBattlefield(lands)]`owner, lands[..OntoBattlefield(lands)]`isTapped
    ensures game.battlefield == old(game.battlefield) + lands[..OntoBattlefield(lands)]
    ensures caster.hand == old(caster.hand) + lands[OntoBattlefield(lands)..]
    ensures forall c :: c in lands[..OntoBattlefield(lands)] ==> c.isTapped && c.owner == caster
  {
    if |lands| > 0 {
      var land1 := lands[0];
      land1.owner := caster;
      game.battlefield := game.battlefield + [land1];
      land1.isTapped := true;
    }
    if |lands| > 1 {
      var land2 := lands[1];
      caster.hand := caster.hand + [land2];
    }
  }

  /** Cultivate's search as the source performs it: find the first two
      basic lands of the caster's deck and pop them, later one first. The
      deck becomes what remains, in order. */
  method SearchDeck(caster: Player) returns (lands: seq<Card>)
    modifies caster`deck
    ensures var r := CultivateSearch(old(caster.deck));
      && lands == r.toBattlefield + r.toHand
      && caster.deck == r.remaining
      && |lands| <= 2
      && lands[..OntoBattlefield(lands)] == r.toBattlefield
      && lands[OntoBattlefield(lands)..] == r.toHand
    ensures forall c :: c in lands ==> c in old(caster.deck)
  {
    CultivateFindsBasicLands(caster.deck);
    var found := FindBasicLands(caster.deck);
    var rest;
    lands, rest := PopFound(caster.deck, found);
    caster.deck := rest;
  }

  /** What Cultivate does once cast: find the first two basic lands of the
      caster's deck, put the later one onto the battlefield tapped under the
      caster's ownership and the earlier one into the hand, then shuffle the
      rest of the deck. Cards that stay in the deck are not touched. */
  method CultivateEffect(caster: Player, game: Game)
    modifies game`battlefield, caster`deck, caster`hand, caster.deck`owner, caster.deck`isTapped
    ensures var r := CultivateSearch(old(caster.deck));
      && game.battlefield == old(game.battlefield) + r.toBattlefield
      && caster.hand == old(caster.hand) + r.toHand
      && multiset(caster.deck) == multiset(r.remaining)
      && (forall c :: c in r.toBattlefield ==> c.isTapped && c.owner == caster)
      && (forall c :: c in old(caster.deck) && c !in r.toBattlefield ==> unchanged(c))
  {
    ghost var r := CultivateSearch(caster.deck);
    CultivateFindsBasicLands(caster.deck);
    var lands := SearchDeck(caster);
    PlaceLands(lands, caster, game);
    caster.ShuffleDeck();
  }

  /** Cultivate's `play`: the ordinary play of a sorcery (the caster records
      it as the spell being cast), then its effect. */
  method CultivatePlay(spell: Card, caster: Player, game: Game)
    requires spell.kind == Kind.Sorcery
    modifies spell`owner, game`battlefield, caster`canPlayLand, caster`castingSpell
    modifies caster`deck, caster`hand, caster.deck`owner, caster.deck`isTapped
    ensures spell.owner == caster && caster.castingSpell == Some(spell.name)
    ensures caster.canPlayLand == old(caster.canPlayLand)
    ensures var r := CultivateSearch(old(caster.deck));
      && game.battlefield == old(game.battlefield) + r.toBattlefield
      && caster.hand == old(caster.hand) + r.toHand
      && multiset(caster.deck) == multiset(r.remaining)
      && (forall c :: c in r.toBattlefield ==> c.isTapped && c.owner == caster)
      && (forall c :: c in old(caster.deck) && c !in r.toBattlefield && c != spell ==> unchanged(c))
  {
    spell.Play(caster, game);
    CultivateFindsBasicLands(caster.deck);
    CultivateEffect(caster, game);
  }

  // ---------------------------------------------------------------------
  // Swords to Plowshares and Cyclonic Rift: act on the first permanent of
  // an opponent that qualifies
  // ---------------------------------------------------------------------

  /** Which of the two targeting spells is scanning the battlefield. */
  datatype Targeting = Plowshares | Rift

  /** Swords to Plowshares targets a creature (a permanent with a power) not
      owned by the caster; Cyclonic Rift a non-land permanent not owned by
      the caster. */
  predicate IsTarget(t: Targeting, c: Card, caster: Player)
    reads c
  {
    (if t == Plowshares then c.kind == Kind.Creature else c.kind != Kind.Land) && c.owner != caster
  }

  /** The qualifying permanents, in battlefield order (the `targets` list the
      scan builds). */
  function Targets(t: Targeting, s: seq<Card>, caster: Player): (r: seq<Card>)
    reads s
    decreases |s|
  {
    if s == [] then []
    else Targets(t, s[..|s| - 1], caster) + (if IsTarget(t, s[|s| - 1], caster) then [s[|s| - 1]] else [])
  }

  /** The position of the first qualifying permanent, if any. */
  function FirstTarget(t: Targeting, s: seq<Card>, caster: Player): (r: Option<nat>)
    reads s
    ensures r.Some? ==> r.value < |s| && IsTarget(t, s[r.value], caster)
    ensures r.Some? ==> forall j :: 0 <= j < r.value ==> !IsTarget(t, s[j], caster)
    ensures r.None? ==> forall j :: 0 <= j < |s| ==> !IsTarget(t, s[j], caster)
    decreases |s|
  {
    if s == [] then None
    else match FirstTarget(t, s[..|s| - 1], caster)
      case Some(i) => Some(i)
      case None => if IsTarget(t, s[|s| - 1], caster) then Some(|s| - 1) else None
  }

  /** The first of the collected targets is the permanent at the first
      qualifying position, and the list is empty exactly when none
      qualifies. */
  lemma {:induction false} TargetsStartAtFirst(t: Targeting, s: seq<Card>, caster: Player)
    ensures (|Targets(t, s, caster)| > 0) == FirstTarget(t, s, caster).Some?
    ensures FirstTarget(t, s, caster).Some? ==> Targets(t, s, caster)[0] == s[FirstTarget(t, s, caster).value]
    decreases |s|
  {
    if s != [] {
      var init := s[..|s| - 1];
      TargetsStartAtFirst(t, init, caster);
      if FirstTarget(t, init, caster).Some? {
        assert s[FirstTarget(t, init, caster).value] == init[FirstTarget(t, init, caster).value];
      }
    }
  }

  /** `list.index`: the first position holding `x`. */
  function IndexOf(s: seq<Card>, x: Card): (i: nat)
    requires x in s
    ensures i < |s| && s[i] == x
    ensures forall j :: 0 <= j < i ==> s[j] != x
  {
    if s[0] == x then 0 else 1 + IndexOf(s[1..], x)
  }

  /** Removing the first collected target by value removes exactly
      the permanent at the first qualifying position. */
  lemma RemoveFirstTarget(t: Targeting, s: seq<Card>, caster: Player)
    requires FirstTarget(t, s, caster).Some?
    ensures |Targets(t, s, caster)| > 0 && Targets(t, s, caster)[0] in s
    ensures |Targets(t, s, caster)| > 0 && Targets(t, s, caster)[0] in s &&
      IndexOf(s, Targets(t, s, caster)[0]) == FirstTarget(t, s, caster).value
  {
    TargetsStartAtFirst(t, s, caster);
    var i := FirstTarget(t, s, caster).value;
    var x := s[i];
  }

  /** The permanent a targeting spell acts on, if any, has an owner: the
      spell changes that owner's life or hand, which fails without one. */
  predicate TargetOwned(t: Targeting, s: seq<Card>, caster: Player)
    reads s
  {
    match FirstTarget(t, s, caster)
    case None => true
    case Some(i) => s[i].owner != null
  }

  /** The owner of the permanent a targeting spell acts on, if it acts on
      one: never the caster. */
  function TargetOwner(t: Targeting, s: seq<Card>, caster: Player): (p: set<Player>)
    requires TargetOwned(t, s, caster)
    reads s
    ensures |p| <= 1 && caster !in p
    ensures FirstTarget(t, s, caster).Some? <==> |p| == 1
  {
    match FirstTarget(t, s, caster)
    case None => {}
    case Some(i) => {s[i].owner}
  }

  /** Collect the targets in battlefield order, as the spells' scan does. */
  method CollectTargets(t: Targeting, game: Game, caster: Player) returns (targets: seq<Card>)
    ensures targets == Targets(t, game.battlefield, caster)
  {
    targets := [];
    var i := 0;
    while i < |game.battlefield|
      invariant 0 <= i <= |game.battlefield|
      invariant targets == Targets(t, game.battlefield[..i], caster)
    {
      var permanent := game.battlefield[i];
      assert game.battlefield[..i + 1][..i] == game.battlefield[..i];
      if IsTarget(t, permanent, caster) {
        targets := targets + [permanent];
      }
      i := i + 1;
    }
    assert game.battlefield[..i] == game.battlefield;
  }

  /** What Swords to Plowshares does once cast: exile the first creature on
      the battlefield that the caster does not own; its owner gains life equal
      to its power. Without such a creature nothing changes. */
  method SwordsToPlowsharesEffect(caster: Player, game: Game)
    requires TargetOwned(Plowshares, game.battlefield, caster)
    modifies game`battlefield, TargetOwner(Plowshares, game.battlefield, caster)
    ensures var first := old(FirstTarget(Plowshares, game.battlefield, caster));
      first.None? ==> game.battlefield == old(game.battlefield)
    ensures var first := old(FirstTarget(Plowshares, game.battlefield, caster));
      first.Some? ==>
        var target := old(game.battlefield[first.value]);
        && game.battlefield == RemoveAt(old(game.battlefield), first.value)
        && target.owner.life == old(target.owner.life) + target.power
    ensures forall p :: p in old(TargetOwner(Plowshares, game.battlefield, caster)) ==>
      unchanged(p`manapool, p`hand, p`deck, p`canPlayLand, p`castingSpell, p`commanderIdentity)
  {
    ghost var bf := game.battlefield;
    var targets := CollectTargets(Plowshares, game, caster);
    TargetsStartAtFirst(Plowshares, bf, caster);
    if |targets| > 0 {
      var target := targets[0];
      RemoveFirstTarget(Plowshares, bf, caster);
      var victim := target.owner;
      assert victim in TargetOwner(Plowshares, bf, caster);
      game.battlefield := RemoveAt(game.battlefield, IndexOf(game.battlefield, target));
      victim.life := victim.life + target.power;
    }
  }

  /** Swords to Plowshares' `play`: the ordinary play of an instant, then its
      effect. The spell itself is an instant, so it is never a target, and
      giving it its owner does not change which permanent is hit. */
  method SwordsToPlowsharesPlay(spell: Card, caster: Player, game: Game)
    requires spell.kind == Kind.Instant
    requires TargetOwned(Plowshares, game.battlefield, caster)
    modifies spell`owner, game`battlefield, caster`canPlayLand, caster`castingSpell
    modifies TargetOwner(Plowshares, game.battlefield, caster)
    ensures spell.owner == caster && caster.castingSpell == Some(spell.name)
    ensures caster.canPlayLand == old(caster.canPlayLand)
    ensures var first := old(FirstTarget(Plowshares, game.battlefield, caster));
      first.None? ==> game.battlefield == old(game.battlefield)
    ensures var first := old(FirstTarget(Plowshares, game.battlefield, caster));
      first.Some? ==>
        var target := old(game.battlefield[first.value]);
        && game.battlefield == RemoveAt(old(game.battlefield), first.value)
        && target.owner.life == old(target.owner.life) + target.power
    ensures forall p :: p in old(TargetOwner(Plowshares, game.battlefield, caster)) ==>
      unchanged(p`manapool, p`hand, p`deck, p`canPlayLand, p`castingSpell, p`commanderIdentity)
  {
    ghost var bf := game.battlefield;
    ghost var owners := TargetOwner(Plowshares, bf, caster);
    spell.Play(caster, game);
    forall c | c in bf
      ensures IsTarget(Plowshares, c, caster) == old(IsTarget(Plowshares, c, caster))
    {
    }
    assert FirstTarget(Plowshares, bf, caster) == old(FirstTarget(Plowshares, bf, caster));
    assert TargetOwner(Plowshares, game.battlefield, caster) == owners;
    SwordsToPlowsharesEffect(caster, game);
  }

  /** What Cyclonic Rift does once cast: return the first non-land permanent
      on the battlefield that the caster does not own to the end of its
      owner's hand. Lands are never touched; without a target nothing
      changes. */
  method CyclonicRiftEffect(caster: Player, game: Game)
    requires TargetOwned(Rift, game.battlefield, caster)
    modifies game`battlefield, TargetOwner(Rift, game.battlefield, caster)
    ensures var first := old(FirstTarget(Rift, game.battlefield, caster));
      first.None? ==> game.battlefield == old(game.battlefield)
    ensures var first := old(FirstTarget(Rift, game.battlefield, caster));
      first.Some? ==>
        var target := old(game.battlefield[first.value]);
        && target.kind != Kind.Land
        && game.battlefield == RemoveAt(old(game.battlefield), first.value)
        && target.owner.hand == old(target.owner.hand) + [target]
    ensures forall p :: p in old(TargetOwner(Rift, game.battlefield, caster)) ==>
      unchanged(p`life, p`manapool, p`deck, p`canPlayLand, p`castingSpell, p`commanderIdentity)
  {
    ghost var bf := game.battlefield;
    var targets := CollectTargets(Rift, game, caster);
    TargetsStartAtFirst(Rift, bf, caster);
    if |targets| > 0 {
      var target := targets[0];
      RemoveFirstTarget(Rift, bf, caster);
      var owner := target.owner;
      assert owner in TargetOwner(Rift, bf, caster);
      game.battlefield := RemoveAt(game.battlefield, IndexOf(game.battlefield, target));
      owner.hand := owner.hand + [target];
    }
  }

  /** Cyclonic Rift's `play`: the ordinary play of an instant, then its
      effect. The spell must not already be on the battlefield: as a non-land
      permanent of another player it would qualify as a target before the
      play gives it to the caster and not after. */
  method CyclonicRiftPlay(spell: Card, caster: Player, game: Game)
    requires spell.kind == Kind.Instant && spell !in game.battlefield
    requires TargetOwned(Rift, game.battlefield, caster)
    modifies spell`owner, game`battlefield, caster`canPlayLand, caster`castingSpell
    modifies TargetOwner(Rift, game.battlefield, caster)
    ensures spell.owner == caster && caster.castingSpell == Some(spell.name)
    ensures caster.canPlayLand == old(caster.canPlayLand)
    ensures var first := old(FirstTarget(Rift, game.battlefield, caster));
      first.None? ==> game.battlefield == old(game.battlefield)
    ensures var first := old(FirstTarget(Rift, game.battlefield, caster));
      first.Some? ==>
        var target := old(game.battlefield[first.value]);
        && target.kind != Kind.Land
        && game.battlefield == RemoveAt(old(game.battlefield), first.value)
        && target.owner.hand == old(target.owner.hand) + [target]
    ensures forall p :: p in old(TargetOwner(Rift, game.battlefield, caster)) ==>
      unchanged(p`life, p`manapool, p`deck, p`canPlayLand, p`castingSpell, p`commanderIdentity)
  {
    ghost var bf := game.battlefield;
    ghost var owners := TargetOwner(Rift, bf, caster);
    spell.Play(caster, game);
    forall c | c in bf
      ensures IsTarget(Rift, c, caster) == old(IsTarget(Rift, c, caster))
    {
    }
    assert FirstTarget(Rift, bf, caster) == old(FirstTarget(Rift, bf, caster));
    assert TargetOwner(Rift, game.battlefield, caster) == owners;
    CyclonicRiftEffect(caster, game);
  }

  // ---------------------------------------------------------------------
  // Dockside Extortionist: one Treasure per opposing artifact or enchantment
  // ---------------------------------------------------------------------

  /** A permanent Dockside Extortionist counts: an artifact or an enchantment
      the caster does not own. */
  predicate IsOpposingArtifactOrEnchantment(c: Card, caster: Player)
    reads c
  {
    c.owner != caster && (c.kind == Kind.Artifact || c.kind == Kind.Enchantment)
  }

  /** How many such permanents `s` holds. */
  function CountOpposing(s: seq<Card>, caster: Player): (n: nat)
    reads s
    ensures n <= |s|
    decreases |s|
  {
    if s == [] then 0
    else CountOpposing(s[..|s| - 1], caster) + (if IsOpposingArtifactOrEnchantment(s[|s| - 1], caster) then 1 else 0)
  }

  /** The number of `true` entries. */
  function CountTrue(flags: seq<bool>): (n: nat)
    ensures n <= |flags|
  {
    if flags == [] then 0 else CountTrue(flags[..|flags| - 1]) + (if flags[|flags| - 1] then 1 else 0)
  }

  /** The count depends only on which permanents qualify: it is the number
      of `true` entries of any list that records, position by position,
      whether the permanent there qualifies. */
  lemma {:induction false} CountOpposingByFlags(s: seq<Card>, caster: Player, flags: seq<bool>)
    requires |flags| == |s|
    requires forall i :: 0 <= i < |s| ==> flags[i] == IsOpposingArtifactOrEnchantment(s[i], caster)
    ensures CountOpposing(s, caster) == CountTrue(flags)
    decreases |s|
  {
    if s != [] {
      CountOpposingByFlags(s[..|s| - 1], caster, flags[..|flags| - 1]);
    }
  }

  /** A Treasure token of the caster, as Dockside Extortionist creates it. */
  predicate IsTreasureOf(t: Card, caster: Player)
    reads t
  {
    && t.name == "Treasure" && t.kind == Kind.Artifact
    && t.subtypes == ["Artifact", "Token"] && t.mc == MergeCost(map["Generic" := 0])
    && t.tappedAbilities == [TreasureAbility]
    && t.owner == caster && !t.isTapped
  }

  /** The counting loop of Dockside Extortionist. */
  method CountOpposingPermanents(game: Game, caster: Player) returns (count: nat)
    ensures count == CountOpposing(game.battlefield, caster)
  {
    count := 0;
    var i := 0;
    while i < |game.battlefield|
      invariant 0 <= i <= |game.battlefield|
      invariant count == CountOpposing(game.battlefield[..i], caster)
    {
      assert game.battlefield[..i + 1][..i] == game.battlefield[..i];
      var permanent := game.battlefield[i];
      if permanent.owner != caster {
        if permanent.kind == Kind.Artifact || permanent.kind == Kind.Enchantment {
          count := count + 1;
        }
      }
      i := i + 1;
    }
    assert game.battlefield[..i] == game.battlefield;
  }

  /** Append `count` new Treasures of the caster to the battlefield. */
  method CreateTreasures(caster: Player, game: Game, count: nat)
    modifies game`battlefield
    ensures |game.battlefield| == |old(game.battlefield)| + count
    ensures game.battlefield[..|old(game.battlefield)|] == old(game.battlefield)
    ensures forall j :: |old(game.battlefield)| <= j < |game.battlefield| ==>
      fresh(game.battlefield[j]) && IsTreasureOf(game.battlefield[j], caster)
    ensures forall j, k :: |old(game.battlefield)| <= j < k < |game.battlefield| ==>
      game.battlefield[j] != game.battlefield[k]
  {
    var base := |game.battlefield|;
    var made := 0;
    while made < count
      invariant 0 <= made <= count
      invariant |game.battlefield| == base + made
      invariant game.battlefield[..base] == old(game.battlefield)
      invariant forall j :: base <= j < |game.battlefield| ==>
        fresh(game.battlefield[j]) && IsTreasureOf(game.battlefield[j], caster)
      invariant forall j, k :: base <= j < k < |game.battlefield| ==> game.battlefield[j] != game.battlefield[k]
    {
      var treasure := new Card.Artifact("Treasure", ["Artifact", "Token"], map["Generic" := 0], [TreasureAbility]);
      treasure.owner := caster;
      game.battlefield := game.battlefield + [treasure];
      made := made + 1;
    }
  }

  /** Dockside Extortionist's `play`: it enters the battlefield, then one new
      Treasure of the caster per artifact or enchantment of an opponent is
      appended after it; everything already on the battlefield stays as it
      was. The creature itself is never counted, so giving it its owner does
      not change the count. */
  method DocksideExtortionistPlay(spell: Card, caster: Player, game: Game)
    requires spell.kind == Kind.Creature
    modifies spell`owner, game`battlefield, caster`canPlayLand, caster`castingSpell
    ensures spell.owner == caster
    ensures caster.canPlayLand == old(caster.canPlayLand) && caster.castingSpell == old(caster.castingSpell)
    ensures var base := |old(game.battlefield)| + 1;
      && |game.battlefield| == base + old(CountOpposing(game.battlefield, caster))
      && game.battlefield[..base] == old(game.battlefield) + [spell]
      && (forall j :: base <= j < |game.battlefield| ==> fresh(game.battlefield[j]) && IsTreasureOf(game.battlefield[j], caster))
      && (forall j, k :: base <= j < k < |game.battlefield| ==> game.battlefield[j] != game.battlefield[k])
  {
    ghost var bf := game.battlefield;
    ghost var flags := seq(|bf|, i requires 0 <= i < |bf| reads bf => IsOpposingArtifactOrEnchantment(bf[i], caster));
    CountOpposingByFlags(bf, caster, flags);
    spell.Play(caster, game);
    assert game.battlefield[..|game.battlefield| - 1] == bf;
    CountOpposingByFlags(bf, caster, flags);
    var count := CountOpposingPermanents(game, caster);
    CreateTreasures(caster, game, count);
  }

  // ---------------------------------------------------------------------
  // Demonic Tutor
  // ---------------------------------------------------------------------

  /** Demonic Tutor's `play`: cast it; with a non-empty deck, the first card
      of the deck goes to the end of the hand and the rest is shuffled. With
      an empty deck nothing else happens, not even a shuffle. */
  method DemonicTutorPlay(spell: Card, caster: Player, game: Game)
    requires spell.kind == Kind.Sorcery
    modifies spell`owner, game`battlefield, caster`canPlayLand, caster`castingSpell
    modifies caster`deck, caster`hand
    ensures spell.owner == caster && caster.castingSpell == Some(spell.name)
    ensures caster.canPlayLand == old(caster.canPlayLand)
    ensures game.battlefield == old(game.battlefield)
    ensures old(caster.deck) == [] ==> caster.deck == [] && caster.hand == old(caster.hand)
    ensures old(caster.deck) != [] ==>
      && caster.hand == old(caster.hand) + [old(caster.deck)[0]]
      && multiset(caster.deck) == multiset(old(caster.deck)[1..])
    ensures multiset(caster.deck) + multiset(caster.hand) == old(multiset(caster.deck) + multiset(caster.hand))
  {
    spell.Play(caster, game);
    if |caster.deck| > 0 {
      var card := caster.deck[0];
      RemoveAtMultiset(caster.deck, 0);
      caster.deck := RemoveAt(caster.deck, 0);
      caster.hand := caster.hand + [card];
      caster.ShuffleDeck();
    }
  }

  // ---------------------------------------------------------------------
  // The concrete cards
  // ---------------------------------------------------------------------

  method NewSolRing() returns (c: Card)
    ensures fresh(c) && c.name == "Sol Ring" && c.kind == Kind.Artifact
    ensures c.subtypes == ["Artifact"] && c.mc == MergeCost(map["Generic" := 1])
    ensures c.tappedAbilities == [SolRingAbility] && c.owner == null && !c.isTapped
  {
    c := new Card.Artifact("Sol Ring", ["Artifact"], map["Generic" := 1], [SolRingAbility]);
  }

  method NewArcaneSignet() returns (c: Card)
    ensures fresh(c) && c.name == "Arcane Signet" && c.kind == Kind.Artifact
    ensures c.subtypes == ["Artifact"] && c.mc == MergeCost(map["Generic" := 2])
    ensures c.tappedAbilities == [ArcaneSignetAbility] && c.owner == null && !c.isTapped
  {
    c := new Card.Artifact("Arcane Signet", ["Artifact"], map["Generic" := 2], [ArcaneSignetAbility]);
  }

  method NewCommandTower() returns (c: Card)
    ensures fresh(c) && c.name == "Command Tower" && c.kind == Kind.Land
    ensures c.types == ["Land"] && c.subtypes == [] && c.mc == DefaultCost()
    ensures c.tappedAbilities == [CommandTowerAbility] && c.owner == null && !c.isTapped
  {
    c := new Card.Land("Command Tower", ["Land"], [], [CommandTowerAbility]);
  }

  method NewCultivate() returns (c: Card)
    ensures fresh(c) && c.name == "Cultivate" && c.kind == Kind.Sorcery
    ensures c.subtypes == ["Sorcery"] && c.mc == MergeCost(map["Generic" := 2, "Green" := 1])
  {
    c := new Card.Sorcery("Cultivate", ["Sorcery"], map["Generic" := 2, "Green" := 1]);
  }

  method NewSwordsToPlowshares() returns (c: Card)
    ensures fresh(c) && c.name == "Swords to Plowshares" && c.kind == Kind.Instant
    ensures c.subtypes == ["Instant"] && c.mc == MergeCost(map["White" := 1])
  {
    c := new Card.Instant("Swords to Plowshares", ["Instant"], map["White" := 1]);
  }

  method NewCyclonicRift() returns (c: Card)
    ensures fresh(c) && c.name == "Cyclonic Rift" && c.kind == Kind.Instant
    ensures c.subtypes == ["Instant"] && c.mc == MergeCost(map["Generic" := 1, "Blue" := 1])
  {
    c := new Card.Instant("Cyclonic Rift", ["Instant"], map["Generic" := 1, "Blue" := 1]);
  }

  method NewRhysticStudy() returns (c: Card)
    ensures fresh(c) && c.name == "Rhystic Study" && c.kind == Kind.Enchantment
    ensures c.subtypes == ["Enchantment"] && c.mc == MergeCost(map["Generic" := 2, "Blue" := 1])
  {
    c := new Card.Enchantment("Rhystic Study", ["Enchantment"], map["Generic" := 2, "Blue" := 1]);
  }

  method NewSmotheringTithe() returns (c: Card)
    ensures fresh(c) && c.name == "Smothering Tithe" && c.kind == Kind.Enchantment
    ensures c.subtypes == ["Enchantment"] && c.mc == MergeCost(map["Generic" := 3, "White" := 1])
  {
    c := new Card.Enchantment("Smothering Tithe", ["Enchantment"], map["Generic" := 3, "White" := 1]);
  }

  method NewDocksideExtortionist() returns (c: Card)
    ensures fresh(c) && c.name == "Dockside Extortionist" && c.kind == Kind.Creature
    ensures c.subtypes == ["Creature", "Goblin", "Pirate"] && c.mc == MergeCost(map["Generic" := 1, "Red" := 1])
    ensures c.power == 1 && c.toughness == 2
  {
    c := new Card.Creature("Dockside Extortionist", ["Creature", "Goblin", "Pirate"], map["Generic" := 1, "Red" := 1], 1, 2, false);
  }

  method NewDemonicTutor() returns (c: Card)
    ensures fresh(c) && c.name == "Demonic Tutor" && c.kind == Kind.Sorcery
    ensures c.subtypes == ["Sorcery"] && c.mc == MergeCost(map["Generic" := 1, "Black" := 1])
  {
    c := new Card.Sorcery("Demonic Tutor", ["Sorcery"], map["Generic" := 1, "Black" := 1]);
  }
}
