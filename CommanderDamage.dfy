/** The commander-damage ledger kept by the game: for each attacking
    commander, the combat damage it has dealt to each victim, by the
    victim's seat index. */
module CommanderDamage {

  type Ledger<K> = map<K, map<nat, int>>

  /** The recorded damage, 0 where nothing is recorded
      for a commander or victim not yet seen. */
  function Damage<K>(ledger: Ledger<K>, commander: K, victim: nat): int
  {
    if commander in ledger && victim in ledger[commander] then ledger[commander][victim] else 0
  }

  /** Credit `amount` to the entry of `commander` against `victim`, creating
      the commander's row and the entry on first use (cards.py:121-126). */
  function Credit<K>(ledger: Ledger<K>, commander: K, victim: nat, amount: int): (r: Ledger<K>)
    ensures r.Keys == ledger.Keys + {commander}
    ensures r[commander].Keys == (if commander in ledger then ledger[commander].Keys else {}) + {victim}
    ensures Damage(r, commander, victim) == Damage(ledger, commander, victim) + amount
    ensures forall k, v :: k in r && (k != commander || v != victim) ==> Damage(r, k, v) == Damage(ledger, k, v)
  {
    var row := if commander in ledger then ledger[commander] else map[];
    ledger[commander := row[victim := Damage(ledger, commander, victim) + amount]]
  }

  /** Credits of non-negative damage never lower any entry and never drop a
      recorded entry: the ledger only grows. */
  lemma CreditOnlyGrows<K>(ledger: Ledger<K>, commander: K, victim: nat, amount: int)
    requires amount >= 0
    ensures var r := Credit(ledger, commander, victim, amount);
      && (forall k :: k in ledger ==> k in r && ledger[k].Keys <= r[k].Keys)
      && (forall k, v :: Damage(r, k, v) >= Damage(ledger, k, v))
  {
  }

  /** Damage from a list of hits by one commander on one victim adds up:
      repeated hits accumulate and are never reset. */
  function CreditAll<K>(ledger: Ledger<K>, commander: K, victim: nat, hits: seq<int>): Ledger<K>
    decreases |hits|
  {
    if hits == [] then ledger
    else CreditAll(Credit(ledger, commander, victim, hits[0]), commander, victim, hits[1..])
  }

  /** The total of a list of damage amounts. */
  function Sum(s: seq<int>): int
  {
    if s == [] then 0 else s[0] + Sum(s[1..])
  }

  /** Adding `a` at one position adds `a` to the total. */
  lemma {:induction false} SumUpdate(s: seq<int>, i: nat, a: int)
    requires i < |s|
    ensures Sum(s[i := s[i] + a]) == Sum(s) + a
  {
    if i > 0 {
      SumUpdate(s[1..], i - 1, a);
      assert s[i := s[i] + a][1..] == s[1..][i - 1 := s[i] + a];
    }
  }

  /** A list of n zeros. */
  function Zeros(n: nat): (z: seq<int>)
    ensures |z| == n && forall i :: 0 <= i < n ==> z[i] == 0
  {
    seq(n, _ => 0)
  }

  /** A list of zeros totals zero. */
  lemma {:induction false} SumZeros(n: nat)
    ensures Sum(Zeros(n)) == 0
  {
    if n > 0 {
      SumZeros(n - 1);
      assert Zeros(n)[1..] == Zeros(n - 1);
    }
  }

  lemma {:induction false} CreditAllAccumulates<K>(ledger: Ledger<K>, commander: K, victim: nat, hits: seq<int>)
    ensures Damage(CreditAll(ledger, commander, victim, hits), commander, victim)
         == Damage(ledger, commander, victim) + Sum(hits)
    ensures forall k, v :: (k != commander || v != victim) ==>
      Damage(CreditAll(ledger, commander, victim, hits), k, v) == Damage(ledger, k, v)
    decreases |hits|
  {
    if hits != [] {
      CreditAllAccumulates(Credit(ledger, commander, victim, hits[0]), commander, victim, hits[1..]);
    }
  }
}
