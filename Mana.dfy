/** An optional value: an attribute the source may or may not have set. */
module Optional {
  datatype Option<T> = None | Some(value: T)
}

/** Mana costs and colour identity (cards.py). A cost maps a symbol name to
    an amount, exactly as the source's dictionaries do: the five colours,
    'Colorless' and 'Generic', and whatever other key a caller supplies. */
module Mana {

  type Cost = map<string, int>

  /** The five colours; only these ever enter a colour identity. */
  const Colors: set<string> := {"White", "Blue", "Black", "Red", "Green"}

  /** The seven symbols every card's cost starts with, at amount 0. */
  const DefaultSymbols: set<string> := Colors + {"Colorless", "Generic"}

  /** The amount a cost gives a symbol, 0 when the symbol is absent. */
  function Amount(mc: Cost, key: string): int
  {
    if key in mc then mc[key] else 0
  }

  /** The cost every card starts with: each default symbol at 0. */
  function DefaultCost(): (mc: Cost)
    ensures mc.Keys == DefaultSymbols
    ensures forall s :: s in mc ==> mc[s] == 0
  {
    map s | s in DefaultSymbols :: 0
  }

  /** The constructors' merge of a given cost with the default cost: every
      key of either, each at the given amount plus the default amount. */
  function MergeCost(given: Cost): (mc: Cost)
    ensures mc.Keys == given.Keys + DefaultSymbols
    ensures forall s :: s in mc ==> mc[s] == Amount(given, s)
  {
    var base := DefaultCost();
    map s | s in given.Keys + base.Keys :: Amount(given, s) + Amount(base, s)
  }

  /** The colour a basic land subtype names, if any. */
  function LandColor(subtype: string): (c: string)
  {
    if subtype == "Plains" then "White"
    else if subtype == "Island" then "Blue"
    else if subtype == "Swamp" then "Black"
    else if subtype == "Mountain" then "Red"
    else if subtype == "Forest" then "Green"
    else ""
  }

  /** The colours contributed by basic land subtypes. */
  function LandColors(subtypes: seq<string>): (id: set<string>)
  {
    set t | t in subtypes && LandColor(t) in Colors :: LandColor(t)
  }

  /** `Card.color_identity`: the colours with a positive amount in the cost,
      together with the colours of the basic land subtypes present. */
  function ColorIdentity(mc: Cost, subtypes: seq<string>): (id: set<string>)
    ensures id <= Colors
  {
    (set c | c in mc && c in Colors && mc[c] > 0) + LandColors(subtypes)
  }

  /** Membership in the colour identity, stated colour by colour: a colour is
      in the identity exactly when the cost names it with a positive amount
      or a subtype is that colour's basic land type. */
  lemma ColorIdentityMembership(mc: Cost, subtypes: seq<string>, c: string)
    ensures c in ColorIdentity(mc, subtypes) <==>
      c in Colors && (Amount(mc, c) > 0 || exists t :: t in subtypes && LandColor(t) == c)
  {
  }

  /** A cost without positive colour amounts and without basic land subtypes
      gives the empty identity: 'Generic' and 'Colorless' never count. */
  lemma ColorlessCostHasEmptyIdentity(mc: Cost, subtypes: seq<string>)
    requires forall c :: c in Colors ==> Amount(mc, c) <= 0
    requires forall t :: t in subtypes ==> LandColor(t) !in Colors
    ensures ColorIdentity(mc, subtypes) == {}
  {
  }

  /** Merging with the default cost never changes the colour identity: the
      defaults add only zero amounts. */
  lemma MergeKeepsIdentity(given: Cost, subtypes: seq<string>)
    ensures ColorIdentity(MergeCost(given), subtypes) == ColorIdentity(given, subtypes)
  {
  }
}
