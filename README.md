# open-mtg card core in Dafny

A model of the card layer of open-mtg, a Commander-format Magic: The
Gathering engine, together with its turn-step cycle. It covers:

- `cards.py`: one `Card` class with a `kind` tag for each card class of the
  source (Land, Creature, Sorcery, Instant, Artifact, Enchantment,
  Planeswalker). It models the constructors' cost merge, the colour
  identity, `play`, `use_tapped_ability` and the creature's combat
  bookkeeping: damage taken and death, commander damage, the damage
  assignment order and the damage assignment.
- `phases.py`: the fourteen turn steps and their cyclic successor.
- `cards_impl.py`: the concrete cards. The mana abilities of Sol Ring,
  Arcane Signet, Command Tower and the Treasure token change the owner's
  mana pool. Cultivate, Swords to Plowshares, Cyclonic Rift, Dockside
  Extortionist and Demonic Tutor move cards between deck, hand and
  battlefield.

Files:

- `Mana.dfy`: costs as maps from symbol to amount, the default cost, the
  constructors' merge and the colour identity.
- `ManaRocks.dfy`: the mana abilities, as functions from the pool before to
  the pool after.
- `Orderings.dfy`: Python's `itertools.permutations` order, negative list
  indices and removal at a position.
- `CommanderDamage.dfy`: the ledger of commander damage, by commander and
  by victim seat.
- `Cards.dfy`: classes `Card`, `Player` and `Game`. Players and the game
  carry only the fields the cards read and write.
- `Spells.dfy`: each card effect as a method. The search or scan the effect
  performs is also given by a function over sequences, and the effect's
  promises are proved about that function.
- `Phases.dfy`: the step enumeration and `next`.

Each Python object that the source updates in place is a Dafny object: a
card, a player, the game. Each list the source mutates (deck, hand,
battlefield, damage assignment) is a `seq` field that the methods reassign.
Card identity is object identity, as Python's list `remove` and `!=` on
owners use it.

## Model

| member | source | states |
|---|---|---|
| Mana.DefaultCost | cards.py:6 | every card starts with the five colours, 'Colorless' and 'Generic', each at 0 |
| Mana.MergeCost | cards.py:67 | the merged cost has exactly the given keys plus the seven default symbols; each amount is the given amount, or 0 where none was given |
| Mana.ColorIdentity | cards.py:17-32 | a card's colour identity (of its cost and subtypes) only ever holds the five colours |
| Mana.ColorIdentityMembership | cards.py:17-32 | a colour is in the identity iff the cost gives it a positive amount or a subtype is that colour's basic land type (both directions) |
| Mana.ColorlessCostHasEmptyIdentity | cards.py:19-30 | a cost with no positive colour amount and no basic land subtype gives the empty identity; 'Generic' and 'Colorless' never contribute |
| Mana.MergeKeepsIdentity | cards.py:87 | merging a given cost with the defaults does not change its colour identity |
| ManaRocks.SolRingMana | cards_impl.py:9-12 | 'Colorless' grows by exactly 2; no other entry or key changes |
| ManaRocks.IdentityColor | cards_impl.py:27-34 | the colour is the first of the owner's commander identity, or 'Colorless' when the identity is missing or empty |
| ManaRocks.IdentityMana | cards_impl.py:19-35 | Arcane Signet adds exactly one mana of that colour, starting from 0 when it is absent; every other entry is unchanged |
| ManaRocks.AddMana | cards_impl.py:182 | the Treasure's add_mana: every key of either map, each at the sum of the two amounts |
| ManaRocks.TotalAfterUpdate | cards_impl.py:35 | adding n mana of one symbol raises the pool's total over distinct symbols by n when that symbol is counted, and leaves it otherwise |
| ManaRocks.SolRingAddsTwo | cards_impl.py:9-12 | Sol Ring raises the pool's total by exactly 2 |
| ManaRocks.IdentityManaAddsOne | cards_impl.py:43-50 | Command Tower and Arcane Signet raise the pool's total by exactly 1 |
| Orderings.PyIndex | cards.py:130 | a Python index in range: non-negative indices are themselves, negative ones count from the end |
| Orderings.RemoveAt | cards_impl.py:74 | popping position i keeps the elements before i and shifts the later ones down by one |
| Orderings.RemoveAtMultiset | cards_impl.py:200 | popping a position removes exactly that element from the multiset |
| Orderings.Permutations | cards.py:129 | `itertools.permutations` order: the permutations starting with the element at position 0 come first, then those starting at position 1, and so on, each group in the same order over the remaining elements (definition; its properties are the rows below) |
| Orderings.PermsFrom | cards.py:129 | the permutations whose first element is taken from position i or later, in that order (definition) |
| Orderings.PermutationsCount | cards.py:129 | n elements have n! permutations |
| Orderings.PermutationsArePermutations | cards.py:129-130 | each listed permutation has the same multiset of elements as the blockers |
| Orderings.PermutationsComplete | cards.py:129 | every rearrangement of the blockers is listed |
| Orderings.PermutationsDistinct | cards.py:129 | for distinct blockers, no permutation is listed twice |
| CommanderDamage.Credit | cards.py:121-126 | the commander's row is created on first use; the entry for (commander, victim), 0 when absent, grows by the amount; every other entry is unchanged |
| CommanderDamage.CreditOnlyGrows | cards.py:121-126 | a credit of non-negative damage never lowers an entry or drops a commander, a victim or a row |
| CommanderDamage.CreditAll | cards.py:121-126 | a sequence of hits by one commander on one victim, credited one after another (definition; see the next row) |
| CommanderDamage.CreditAllAccumulates | cards.py:125-126 | repeated hits accumulate: after a sequence of hits the entry has grown by their sum and the others are unchanged |
| CommanderDamage.SumUpdate | cards.py:135 | adding a to one position of a list adds a to its sum |
| CommanderDamage.Zeros | cards.py:132 | a list of n zeros |
| CommanderDamage.SumZeros | cards.py:132 | a list of zeros sums to 0 |
| Cards.Player.LoseLife | cards.py:119 | losing life lowers life by exactly the amount |
| Cards.Player.ShuffleDeck | cards_impl.py:92 | shuffling keeps the deck's multiset of cards |
| Cards.AbilityMana | cards.py:183-186 | the call of the chosen tapped ability: each known ability's change to its owner's pool (definition; used by UseTappedAbility) |
| Cards.Card.Land | cards.py:39-44 | a land keeps the default cost and the given types, subtypes and abilities; it starts unowned and untapped |
| Cards.Card.Sorcery | cards.py:64-68 | the cost is the merged cost; the card starts unowned and untapped |
| Cards.Card.Creature | cards.py:84-103 | merged cost; power and toughness as given; alive, summoning sick, no damage, no blockers, an empty assignment |
| Cards.Card.Instant | cards.py:146-151 | the cost is the merged cost; the card starts unowned and untapped |
| Cards.Card.Artifact | cards.py:167-175 | merged cost and the given abilities; starts unowned and untapped |
| Cards.Card.Enchantment | cards.py:196-200 | the cost is the merged cost; the card starts unowned and untapped |
| Cards.Card.Planeswalker | cards.py:216-221 | merged cost and the given loyalty; starts unowned and untapped |
| Cards.Card.Play | cards.py:46-52 | the card's owner becomes the caster. A land, creature, artifact, enchantment or planeswalker is appended to the end of the battlefield; a land also ends the caster's land drop. A sorcery or instant leaves the battlefield alone and records its name as the spell being cast. This covers the variants at cards.py lines 13-14, 70-74, 105-109, 153-157, 177-181, 202-206 and 223-227 |
| Cards.Card.UseTappedAbility | cards.py:183-186 | a tapped card does nothing and its owner's pool is unchanged. Otherwise the card ends tapped and, when owned, the chosen ability changes the owner's pool exactly once. The owner's other fields never change. Land's identical method is at cards.py:54-57 |
| Cards.Card.TakeDamage | cards.py:111-114 | damage taken grows by exactly the amount; the creature is dead iff it already was or its damage has reached its toughness, so death is never undone |
| Cards.Card.DealCombatDamageToOpponent | cards.py:116-126 | the defending player loses life equal to the power; the ledger is credited for a commander and unchanged otherwise |
| Cards.Card.SetDamageAssignmentOrder | cards.py:128-132 | the order is the k-th permutation of the blockers (Python indexing) and so a rearrangement of them; damage to assign is the power; the assignment is one zero per blocker; the total is balanced against the power |
| Cards.Card.AssignDamage | cards.py:134-136 | only position i of the assignment changes, growing by the amount; damage to assign drops by the amount; assigned plus unassigned damage is kept, so a balanced creature stays balanced |
| Spells.IsBasicLand | cards_impl.py:63 | a card Cultivate may find: a land whose types include "Basic Land" (definition) |
| Spells.BasicIndices | cards_impl.py:61-66 | at most `limit` positions, increasing, each of a basic land |
| Spells.BasicIndicesAreTheFirst | cards_impl.py:62-66 | no basic land is skipped: each one is found, or comes after a full set of finds |
| Spells.CultivateSearch | cards_impl.py:61-90 | where the search sends the deck's cards: with two basic lands found, the later to the battlefield and the earlier to the hand; with one, to the battlefield; the rest of the deck in order (definition; its properties are the next two rows) |
| Spells.CultivateConservesCards | cards_impl.py:70-90 | the search loses and creates no card: the deck is what remains plus the land for the battlefield plus the land for the hand |
| Spells.CultivateFindsBasicLands | cards_impl.py:61-90 | at most one land for the battlefield and one for the hand, the hand's only when there is a battlefield land; all are basic lands; when fewer than two are found, no basic land stays in the deck |
| Spells.ScanStep | cards_impl.py:62-66 | one step of the scan keeps what was found, followed by what remains to be found, equal to the full answer |
| Spells.FindBasicLands | cards_impl.py:61-66 | the loop (with its early exit) finds the positions of the first two basic lands, in deck order |
| Spells.PopFound | cards_impl.py:70-74 | popping from the highest position down yields the later land first, then the earlier; the deck that remains is the specified one |
| Spells.SearchDeck | cards_impl.py:59-74 | the scan and the pops leave the deck as the search's remainder and yield the search's lands, later one first, all taken from the deck |
| Spells.PlaceLands | cards_impl.py:76-90 | the first popped land is appended to the battlefield, tapped and owned by the caster; the second, if any, is appended to the hand; of the moved land only its owner and tapped flag may change |
| Spells.CultivateEffect | cards_impl.py:59-92 | the battlefield gains the later basic land, the hand the earlier; the deck is a shuffle of the rest; the moved land is tapped and the caster's, and only those two of its fields change; cards left in the deck are untouched |
| Spells.CultivatePlay | cards_impl.py:56-92 | the sorcery's play, then the effect above: the caster's land drop is kept, and deck cards other than the moved land are untouched. Together with CultivateConservesCards, deck, hand and battlefield keep their combined cards |
| Spells.IsTarget | cards_impl.py:105 | Swords to Plowshares qualifies a creature not owned by the caster, Cyclonic Rift (line 130) a non-land not owned by the caster (definition) |
| Spells.Targets | cards_impl.py:103-106 | the qualifying permanents in battlefield order, the list both scans build (definition; CollectTargets and TargetsStartAtFirst state its properties) |
| Spells.FirstTarget | cards_impl.py:103-109 | the first permanent that qualifies (a creature for Swords to Plowshares, a non-land for Cyclonic Rift, in both cases not the caster's), with none before it; or none at all |
| Spells.TargetsStartAtFirst | cards_impl.py:108-109 | the collected list is empty iff nothing qualifies, and otherwise starts with the first qualifying permanent |
| Spells.IndexOf | cards_impl.py:114 | the first position holding the card |
| Spells.RemoveFirstTarget | cards_impl.py:114 | removing the first collected target by value removes the permanent at the first qualifying position |
| Spells.TargetOwned | cards_impl.py:116 | the first target, if any, has an owner, the one condition under which the effect's update of that owner succeeds (definition) |
| Spells.TargetOwner | cards_impl.py:116 | at most one player is affected, exactly when there is a target, and never the caster |
| Spells.CollectTargets | cards_impl.py:103-106 | the scan collects exactly the qualifying permanents, in battlefield order |
| Spells.SwordsToPlowsharesEffect | cards_impl.py:101-116 | with a target, it is removed from the battlefield and its owner gains life equal to its power, with nothing else of that player changed; without one, nothing changes |
| Spells.SwordsToPlowsharesPlay | cards_impl.py:98-116 | the instant's play, then the effect above: the spell is the caster's and recorded as being cast; the caster's land drop is kept; the target's owner gains the life and nothing else of that player changes; without a target the battlefield is unchanged |
| Spells.CyclonicRiftEffect | cards_impl.py:126-139 | with a target (never a land), it leaves the battlefield and goes to the end of its owner's hand, with nothing else of that player changed; without one, nothing changes |
| Spells.CyclonicRiftPlay | cards_impl.py:123-139 | the instant's play, then the effect above: the spell is the caster's and recorded as being cast; the caster's land drop is kept; the target goes to its owner's hand and nothing else of that player changes |
| Spells.IsOpposingArtifactOrEnchantment | cards_impl.py:173-174 | a permanent Dockside Extortionist counts: an artifact or enchantment not owned by the caster (definition) |
| Spells.CountOpposing | cards_impl.py:171-175 | the count of opponents' artifacts and enchantments never exceeds the number of permanents |
| Spells.CountTrue | cards_impl.py:175 | the number of qualifying positions never exceeds the number of positions |
| Spells.CountOpposingByFlags | cards_impl.py:171-175 | the count depends only on which permanents qualify, so a change that keeps every permanent's qualification keeps the count |
| Spells.CountOpposingPermanents | cards_impl.py:171-175 | the loop's count is the number of artifacts and enchantments on the battlefield that the caster does not own |
| Spells.CreateTreasures | cards_impl.py:181-184 | exactly `count` new Treasures of the caster are appended, each a fresh untapped artifact and no two the same object; everything before them is unchanged |
| Spells.DocksideExtortionistPlay | cards_impl.py:167-184 | the battlefield becomes the old one, then Dockside Extortionist, then one fresh and distinct Treasure of the caster for each opposing artifact or enchantment; the caster's land drop and spell being cast are kept |
| Spells.DemonicTutorPlay | cards_impl.py:190-205 | with a non-empty deck, the first card goes to the end of the hand and the deck is a shuffle of the rest; with an empty deck, deck and hand are unchanged; the battlefield and the caster's land drop are unchanged and no card is gained or lost |
| Spells.NewSolRing | cards_impl.py:4-7 | an artifact named Sol Ring, costing 1 generic, with Sol Ring's ability |
| Spells.NewArcaneSignet | cards_impl.py:14-17 | an artifact named Arcane Signet, costing 2 generic, with Arcane Signet's ability |
| Spells.NewCommandTower | cards_impl.py:37-41 | a land named Command Tower with no subtypes and Command Tower's ability |
| Spells.NewCultivate | cards_impl.py:52-54 | a sorcery costing 2 generic and 1 green |
| Spells.NewSwordsToPlowshares | cards_impl.py:94-96 | an instant costing 1 white |
| Spells.NewCyclonicRift | cards_impl.py:118-120 | an instant costing 1 generic and 1 blue |
| Spells.NewRhysticStudy | cards_impl.py:141-143 | an enchantment costing 2 generic and 1 blue |
| Spells.NewSmotheringTithe | cards_impl.py:153-155 | an enchantment costing 3 generic and 1 white |
| Spells.NewDocksideExtortionist | cards_impl.py:163-165 | a 1/2 Goblin Pirate creature costing 1 generic and 1 red |
| Spells.NewDemonicTutor | cards_impl.py:186-188 | a sorcery costing 1 generic and 1 black |
| Phases.Members | phases.py:22 | the member list has fourteen entries |
| Phases.MembersAsDeclared | phases.py:4-18 | the member list is the fourteen steps in declaration order |
| Phases.MembersInOrder | phases.py:5-18 | the member at position i has value i + 1, so every step is listed |
| Phases.Position | phases.py:23 | the index of a member is a position of the list |
| Phases.PositionFirst | phases.py:23 | the index holds the member, and no earlier position does |
| Phases.PositionIsValue | phases.py:23 | a step's index in the member list is its value minus one |
| Phases.Next | phases.py:20-26 | the member after the current one in the member list, wrapping from the last to the first (definition; the rows below state its properties) |
| Phases.NextValue | phases.py:20-26 | a step with value v < 14 is followed by the step with value v + 1; the last step is followed by the untap step |
| Phases.CleanupWrapsToUntap | phases.py:24-25 | the cleanup step wraps to the untap step |
| Phases.NextIsBijection | phases.py:20-26 | `next` has an inverse on both sides, so it is a bijection on the fourteen steps |
| Phases.NextHasNoFixedPoint | phases.py:20-26 | no step is its own successor |
| Phases.IterateValue | phases.py:20-26 | k applications of `next` advance the step's position by k modulo 14 |
| Phases.IteratePeriod | phases.py:20-26 | k applications of `next` return to the starting step iff k is a multiple of 14 |
| Phases.CombatSubStepsOrder | phases.py:11-14 | the rule 509.2 and rule 510.1c sub-steps follow declare-blockers, in that order, and precede combat damage |

## Left out

- `game.py` and `player.py` are not part of this model. That leaves out turn rotation, mana payment, generic debt, commander tax, state-based actions, the game-over check and deck validation. Players and the game have only the fields the cards use.
- Cards.Player.LoseLife, ManaRocks.AddMana: `lose_life` and `add_mana` belong to `player.py`. They are given the behaviour their names and callers imply: lose the amount, and add each amount.
- Cards.Player.ShuffleDeck: the shuffle is random, so the model promises only that the deck keeps its multiset of cards.
- Narration under `verbose` and all printing.
- Rhystic Study and Smothering Tithe do nothing beyond an enchantment's ordinary `play`. Only their construction is modelled; their triggers are unimplemented in the source.
- Bare cards built with the base `Card()` constructor are not modelled: every modelled card is one of the seven card classes. A bare card's `play` only sets the owner, and it has no subtypes. The deck-location flag, the instant flag and the combat lists (attacking, blocking) are set by constructors but not read by the core, so they are not modelled.
- Tapped abilities are a closed set of the four known effects rather than first-class functions. Attribute probing is modelled as the card's kind tag (`power` means a creature) and as an optional commander identity.
- Subtypes are always a list of strings. A caller that passes one string would have `in` test substrings; that case is not modelled.
- Mana.ColorIdentity: the colour identity is a set, where the source returns the set's elements as a list in unspecified order.
- Phases.Next: steps are identified with their declared integer values, and `next` is computed by position in the member list, as the source does.
- Spells.SwordsToPlowsharesPlay, Spells.SwordsToPlowsharesEffect, Spells.CyclonicRiftPlay, Spells.CyclonicRiftEffect: these require the first target, if any, to have an owner. An unowned permanent qualifies as a target, and the source then fails when it updates the owner's life or hand. The failure itself is not modelled.
- Spells.CyclonicRiftPlay: requires the spell not to be on the battlefield already. An instant there under another player's ownership would qualify as a target before the play makes it the caster's and not after, and the contract is stated over the battlefield as it was before the play.
- Spells.CultivatePlay: conservation of deck, hand and battlefield is stated on the search (CultivateConservesCards) that the method is proved to follow, not as one more clause on the method.
- Cards.Card.UseTappedAbility: the Treasure's ability requires an owner and Sol Ring's requires an existing 'Colorless' entry in the owner's pool, as the source would otherwise fail.
