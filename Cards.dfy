/** Cards, and the parts of players and the game that cards act on
    (cards.py). Every card variant of the source is one `Card` object with a
    `kind` tag; creature combat bookkeeping lives in fields that only
    creatures use. Players and the game appear only with the fields the cards
    read and write; player.py and game.py are not part of this model. */
module Cards {
  import opened Optional
  import opened Mana
  import ManaRocks
  import opened Orderings
  import opened CommanderDamage

  /** The card classes of cards.py. */
  datatype Kind = Land | Creature | Sorcery | Instant | Artifact | Enchantment | Planeswalker

  /** The tapped abilities that the known cards register (cards_impl.py). */
  datatype Ability = SolRingAbility | ArcaneSignetAbility | CommandTowerAbility | TreasureAbility

  /** Kinds whose `play` puts the card onto the battlefield. */
  predicate IsPermanent(k: Kind)
  {
    k != Sorcery && k != Instant
  }

  /** What a tapped ability does to its owner's mana pool, given the owner's
      commander identity (if the owner has one recorded). */
  function AbilityMana(a: Ability, pool: Cost, identity: Option<seq<string>>): (r: Cost)
    requires a == SolRingAbility ==> "Colorless" in pool
  {
    match a
    case SolRingAbility => ManaRocks.SolRingMana(pool)
    case ArcaneSignetAbility => ManaRocks.IdentityMana(pool, identity)
    case CommandTowerAbility => ManaRocks.IdentityMana(pool, identity)
    case TreasureAbility => ManaRocks.AddMana(pool, map["Generic" := 1])
  }

  class Player {
    /** Stable seat position. */
    const index: nat
    var life: int
    var manapool: Cost
    var hand: seq<Card>
    var deck: seq<Card>
    var canPlayLand: bool
    /** Name of the spell being cast, once a sorcery or instant was played. */
    var castingSpell: Option<string>
    /** The commander colour identity, when the game has recorded one. */
    var commanderIdentity: Option<seq<string>>

    /** `lose_life`, as cards.py:119 uses it. */
    method LoseLife(amount: int)
      modifies this`life
      ensures life == old(life) - amount
    {
      life := life - amount;
    }

    /** `shuffle_deck`: some rearrangement of the deck, chosen at random. */
    method ShuffleDeck()
      modifies this`deck
      ensures multiset(deck) == old(multiset(deck))
    {
      var shuffled :| multiset(shuffled) == multiset(deck);
      deck := shuffled;
    }
  }

  class Game {
    /** The shared battlefield: every permanent in play, each tagged with its
        owner. */
    var battlefield: seq<Card>
    /** The defending player during combat damage. */
    var nonactivePlayer: Player?
    var commanderDamage: Ledger<Card>
  }

  class Card {
    const name: string
    const kind: Kind
    /** Mana cost. */
    const mc: Cost
    /** Card types; only lands carry them. */
    const types: seq<string>
    const subtypes: seq<string>
    const tappedAbilities: seq<Ability>
    const basePower: int
    const baseToughness: int
    const loyalty: int
    const cannotBlock: bool

    var owner: Player?
    var isTapped: bool
    var isCommander: bool

    var power: int
    var toughness: int
    var isDead: bool
    var summoningSick: bool
    var damageTaken: int
    var damageToAssign: int
    var isBlockedBy: seq<Card>
    var damageAssignmentOrder: seq<Card>
    var damageAssignment: seq<int>

    constructor Land(name: string, types: seq<string>, subtypes: seq<string>, tappedAbilities: seq<Ability>)
      ensures this.name == name && kind == Kind.Land && mc == DefaultCost()
      ensures this.types == types && this.subtypes == subtypes && this.tappedAbilities == tappedAbilities
      ensures owner == null && !isTapped && !isCommander
    {
      this.name := name;
      kind := Kind.Land;
      mc := DefaultCost();
      this.types := types;
      this.subtypes := subtypes;
      this.tappedAbilities := tappedAbilities;
      owner := null;
      isTapped := false;
      isCommander := false;
    }

    constructor Sorcery(name: string, subtypes: seq<string>, given: Cost)
      ensures this.name == name && kind == Kind.Sorcery && mc == MergeCost(given)
      ensures this.subtypes == subtypes && tappedAbilities == []
      ensures owner == null && !isTapped && !isCommander
    {
      this.name := name;
      kind := Kind.Sorcery;
      mc := MergeCost(given);
      this.subtypes := subtypes;
      tappedAbilities := [];
      owner := null;
      isTapped := false;
      isCommander := false;
    }

    constructor Creature(name: string, subtypes: seq<string>, given: Cost, power: int, toughness: int, cannotBlock: bool)
      ensures this.name == name && kind == Kind.Creature && mc == MergeCost(given)
      ensures this.subtypes == subtypes && tappedAbilities == []
      ensures basePower == power && this.power == power
      ensures baseToughness == toughness && this.toughness == toughness
      ensures this.cannotBlock == cannotBlock
      ensures !isDead && summoningSick && damageTaken == 0 && damageToAssign == 0
      ensures isBlockedBy == [] && damageAssignmentOrder == [] && damageAssignment == []
      ensures owner == null && !isTapped && !isCommander
    {
      this.name := name;
      kind := Kind.Creature;
      mc := MergeCost(given);
      this.subtypes := subtypes;
      tappedAbilities := [];
      basePower := power;
      this.power := power;
      baseToughness := toughness;
      this.toughness := toughness;
      this.cannotBlock := cannotBlock;
      isDead := false;
      summoningSick := true;
      damageTaken := 0;
      damageToAssign := 0;
      isBlockedBy := [];
      damageAssignmentOrder := [];
      damageAssignment := [];
      owner := null;
      isTapped := false;
      isCommander := false;
    }

    constructor Instant(name: string, subtypes: seq<string>, given: Cost)
      ensures this.name == name && kind == Kind.Instant && mc == MergeCost(given)
      ensures this.subtypes == subtypes && tappedAbilities == []
      ensures owner == null && !isTapped && !isCommander
    {
      this.name := name;
      kind := Kind.Instant;
      mc := MergeCost(given);
      this.subtypes := subtypes;
      tappedAbilities := [];
      owner := null;
      isTapped := false;
      isCommander := false;
    }

    constructor Artifact(name: string, subtypes: seq<string>, given: Cost, tappedAbilities: seq<Ability>)
      ensures this.name == name && kind == Kind.Artifact && mc == MergeCost(given)
      ensures this.subtypes == subtypes && this.tappedAbilities == tappedAbilities
      ensures owner == null && !isTapped && !isCommander
    {
      this.name := name;
      kind := Kind.Artifact;
      mc := MergeCost(given);
      this.subtypes := subtypes;
      this.tappedAbilities := tappedAbilities;
      owner := null;
      isTapped := false;
      isCommander := false;
    }

    constructor Enchantment(name: string, subtypes: seq<string>, given: Cost)
      ensures this.name == name && kind == Kind.Enchantment && mc == MergeCost(given)
      ensures this.subtypes == subtypes && tappedAbilities == []
      ensures owner == null && !isTapped && !isCommander
    {
      this.name := name;
      kind := Kind.Enchantment;
      mc := MergeCost(given);
      this.subtypes := subtypes;
      tappedAbilities := [];
      owner := null;
      isTapped := false;
      isCommander := false;
    }

    constructor Planeswalker(name: string, subtypes: seq<string>, given: Cost, loyalty: int)
      ensures this.name == name && kind == Kind.Planeswalker && mc == MergeCost(given)
      ensures this.subtypes == subtypes && tappedAbilities == [] && this.loyalty == loyalty
      ensures owner == null && !isTapped && !isCommander
    {
      this.name := name;
      kind := Kind.Planeswalker;
      mc := MergeCost(given);
      this.subtypes := subtypes;
      tappedAbilities := [];
      this.loyalty := loyalty;
      owner := null;
      isTapped := false;
      isCommander := false;
    }

    /** `play`: the card gets its owner; permanents join the end of the shared
        battlefield (a land also uses up the owner's land drop), while a
        sorcery or instant only records its name as the spell being cast. */
    method Play(caster: Player, game: Game)
      modifies this`owner, game`battlefield, caster`canPlayLand, caster`castingSpell
      ensures owner == caster
      ensures game.battlefield == if IsPermanent(kind) then old(game.battlefield) + [this] else old(game.battlefield)
      ensures caster.canPlayLand == if kind == Kind.Land then false else old(caster.canPlayLand)
      ensures caster.castingSpell == if IsPermanent(kind) then old(caster.castingSpell) else Some(name)
    {
      owner := caster;
      if IsPermanent(kind) {
        game.battlefield := game.battlefield + [this];
        if kind == Kind.Land {
          caster.canPlayLand := false;
        }
      } else {
        caster.castingSpell := Some(name);
      }
    }

    /** `use_tapped_ability`: on an untapped land or artifact, tap it and run
        the chosen ability once, which (for an owned card) changes the owner's
        mana pool; on a tapped one, nothing happens. */
    method UseTappedAbility(index: int)
      requires kind == Kind.Land || kind == Kind.Artifact
      requires !isTapped ==> 0 <= |tappedAbilities| + index && index < |tappedAbilities|
      requires !isTapped && tappedAbilities[PyIndex(index, |tappedAbilities|)] == TreasureAbility ==> owner != null
      requires !isTapped && owner != null && tappedAbilities[PyIndex(index, |tappedAbilities|)] == SolRingAbility ==>
        "Colorless" in owner.manapool
      modifies this`isTapped, owner
      ensures isTapped
      ensures owner != null ==>
        unchanged(owner`life, owner`hand, owner`deck, owner`canPlayLand, owner`castingSpell, owner`commanderIdentity)
      ensures old(isTapped) && owner != null ==> owner.manapool == old(owner.manapool)
      ensures !old(isTapped) && owner != null ==>
        owner.manapool == AbilityMana(tappedAbilities[PyIndex(index, |tappedAbilities|)], old(owner.manapool), owner.commanderIdentity)
    {
      if !isTapped {
        isTapped := true;
        var ability := tappedAbilities[PyIndex(index, |tappedAbilities|)];
        if owner != null {
          owner.manapool := AbilityMana(ability, owner.manapool, owner.commanderIdentity);
        }
      }
    }

    /** `take_damage`: accumulate the damage; the creature is dead once the
        damage reaches its toughness, and stays dead. */
    method TakeDamage(amount: int)
      requires kind == Kind.Creature
      modifies this`damageTaken, this`isDead
      ensures damageTaken == old(damageTaken) + amount
      ensures isDead == (old(isDead) || damageTaken >= toughness)
    {
      damageTaken := damageTaken + amount;
      if damageTaken >= toughness {
        isDead := true;
      }
    }

    /** `deal_combat_damage_to_opponent`: the defending player loses life equal
        to the creature's power and, for a commander, the ledger entry of this
        commander against that player grows by the same amount. */
    method DealCombatDamageToOpponent(game: Game)
      requires kind == Kind.Creature
      requires game.nonactivePlayer != null
      modifies game.nonactivePlayer`life, game`commanderDamage
      ensures game.nonactivePlayer.life == old(game.nonactivePlayer.life) - power
      ensures game.commanderDamage ==
        if isCommander then Credit(old(game.commanderDamage), this, game.nonactivePlayer.index, power)
        else old(game.commanderDamage)
    {
      var victim := game.nonactivePlayer;
      victim.LoseLife(power);
      if isCommander {
        game.commanderDamage := Credit(game.commanderDamage, this, victim.index, power);
      }
    }

    /** The damage still to assign plus the damage assigned is the creature's
        power. */
    ghost predicate AssignmentBalanced()
      reads this
    {
      Sum(damageAssignment) + damageToAssign == power
    }

    /** `set_damage_assignment_order`: choose the `order`-th permutation of the
        blockers (a negative `order` counts from the end, as a Python index
        does), reset the damage to assign to the creature's power and the
        allocation to one zero per blocker. */
    method SetDamageAssignmentOrder(order: int)
      requires kind == Kind.Creature
      requires 0 <= Fact(|isBlockedBy|) + order && order < Fact(|isBlockedBy|)
      modifies this`damageAssignmentOrder, this`damageToAssign, this`damageAssignment
      ensures var k := PyIndex(order, Fact(|isBlockedBy|));
        k < |Permutations(isBlockedBy)| && damageAssignmentOrder == Permutations(isBlockedBy)[k]
      ensures multiset(damageAssignmentOrder) == multiset(isBlockedBy)
      ensures damageToAssign == power
      ensures damageAssignment == Zeros(|isBlockedBy|)
      ensures AssignmentBalanced()
    {
      PermutationsCount(isBlockedBy);
      var all := Permutations(isBlockedBy);
      damageAssignmentOrder := all[PyIndex(order, |all|)];
      PermutationsArePermutations(isBlockedBy, damageAssignmentOrder);
      damageToAssign := power;
      damageAssignment := Zeros(|damageAssignmentOrder|);
      assert |damageAssignmentOrder| == |isBlockedBy| by {
        assert |multiset(damageAssignmentOrder)| == |multiset(isBlockedBy)|;
      }
      SumZeros(|damageAssignmentOrder|);
    }

    /** `assign_damage`: move `amount` from the damage still to assign to the
        blocker at position `index`; the total is kept. */
    method AssignDamage(index: int, amount: int)
      requires kind == Kind.Creature
      requires 0 <= |damageAssignment| + index && index < |damageAssignment|
      modifies this`damageAssignment, this`damageToAssign
      ensures var i := PyIndex(index, |old(damageAssignment)|);
        damageAssignment == old(damageAssignment)[i := old(damageAssignment)[i] + amount]
      ensures damageToAssign == old(damageToAssign) - amount
      ensures Sum(damageAssignment) + damageToAssign == old(Sum(damageAssignment) + damageToAssign)
      ensures old(AssignmentBalanced()) ==> AssignmentBalanced()
    {
      var i := PyIndex(index, |damageAssignment|);
      SumUpdate(damageAssignment, i, amount);
      damageAssignment := damageAssignment[i := damageAssignment[i] + amount];
      damageToAssign := damageToAssign - amount;
    }
  }
}
