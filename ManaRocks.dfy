/** What the mana abilities of Sol Ring, Arcane Signet, Command Tower and
    the Treasure token do to their owner's mana pool (cards_impl.py), as
    functions from the pool before to the pool after. */
module ManaRocks {
  import opened Mana
  import opened Optional

  /** Sol Ring: two more 'Colorless' mana. The source increments an existing
      dictionary entry, so the pool must already hold that key. */
  function SolRingMana(pool: Cost): (r: Cost)
    requires "Colorless" in pool
    ensures r.Keys == pool.Keys
    ensures r["Colorless"] == pool["Colorless"] + 2
    ensures forall k :: k in pool && k != "Colorless" ==> r[k] == pool[k]
  {
    pool["Colorless" := pool["Colorless"] + 2]
  }

  /** The colour Arcane Signet and Command Tower produce: the first colour of
      the owner's commander identity, or 'Colorless' when the owner has no
      identity recorded or it is empty. */
  function IdentityColor(identity: Option<seq<string>>): (c: string)
    ensures identity.Some? && |identity.value| > 0 ==> c == identity.value[0]
    ensures identity.None? || identity.value == [] ==> c == "Colorless"
  {
    var colors := if identity.None? || identity.value == [] then ["Colorless"] else identity.value;
    colors[0]
  }

  /** Arcane Signet and Command Tower: one more mana of `IdentityColor`,
      starting from 0 when the pool has no entry for it. */
  function IdentityMana(pool: Cost, identity: Option<seq<string>>): (r: Cost)
    ensures var c := IdentityColor(identity);
      && r.Keys == pool.Keys + {c}
      && r[c] == Amount(pool, c) + 1
      && forall k :: k in pool && k != c ==> r[k] == pool[k]
  {
    var c := IdentityColor(identity);
    pool[c := Amount(pool, c) + 1]
  }

  /** Add every amount of `m` to the pool (`Player.add_mana`, used by the
      Treasure token with {'Generic': 1}). */
  function AddMana(pool: Cost, m: Cost): (r: Cost)
    ensures r.Keys == pool.Keys + m.Keys
    ensures forall k :: k in r ==> r[k] == Amount(pool, k) + Amount(m, k)
  {
    map k | k in pool.Keys + m.Keys :: Amount(pool, k) + Amount(m, k)
  }

  /** Total mana in a pool, over a given list of symbols. */
  function Total(pool: Cost, symbols: seq<string>): int
  {
    if symbols == [] then 0 else Amount(pool, symbols[0]) + Total(pool, symbols[1..])
  }

  /** Adding n mana of one symbol raises the pool's total over a list of
      distinct symbols by n when that symbol is listed, and leaves it
      unchanged otherwise. */
  lemma {:induction false} TotalAfterUpdate(pool: Cost, symbols: seq<string>, c: string, n: int)
    requires forall i, j :: 0 <= i < j < |symbols| ==> symbols[i] != symbols[j]
    ensures Total(pool[c := Amount(pool, c) + n], symbols)
         == Total(pool, symbols) + (if c in symbols then n else 0)
  {
    if symbols != [] {
      TotalAfterUpdate(pool, symbols[1..], c, n);
      if c == symbols[0] {
        assert c !in symbols[1..];
      }
    }
  }

  /** Sol Ring adds exactly two mana to the pool's total over any list of
      distinct symbols that includes 'Colorless'. */
  lemma SolRingAddsTwo(pool: Cost, symbols: seq<string>)
    requires "Colorless" in pool && "Colorless" in symbols
    requires forall i, j :: 0 <= i < j < |symbols| ==> symbols[i] != symbols[j]
    ensures Total(SolRingMana(pool), symbols) == Total(pool, symbols) + 2
  {
    TotalAfterUpdate(pool, symbols, "Colorless", 2);
  }

  /** Arcane Signet and Command Tower add exactly one mana to the pool's total
      over any list of distinct symbols that includes the colour they
      produce. */
  lemma IdentityManaAddsOne(pool: Cost, identity: Option<seq<string>>, symbols: seq<string>)
    requires IdentityColor(identity) in symbols
    requires forall i, j :: 0 <= i < j < |symbols| ==> symbols[i] != symbols[j]
    ensures Total(IdentityMana(pool, identity), symbols) == Total(pool, symbols) + 1
  {
    TotalAfterUpdate(pool, symbols, IdentityColor(identity), 1);
  }
}
