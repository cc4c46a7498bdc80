/**
 * The "count by key" fold that both statistics builders run three times
 * (src/context/AppContext.tsx:268-290, src/hooks/useAnimals.ts:157-179):
 * `animals.reduce((acc, a) => { acc[key(a)] = (acc[key(a)] || 0) + 1; return acc; }, {})`.
 */
module Counting {
  import opened Types

  /** Which field an animal is counted by. */
  datatype Grouping = ByCategory | ByConservation | ByContinent

  /** The key an animal is counted under: a category value, a status value or a continent. */
  function GroupKey(a: Animal, g: Grouping): string {
    match g
    case ByCategory => CategoryValue(a.category)
    case ByConservation => StatusValue(a.conservationStatus)
    case ByContinent => a.location.continent
  }

  /** `acc[k] || 0`: the count under `k`, zero when the key is absent. */
  function CountOf(m: map<string, nat>, k: string): nat {
    if k in m then m[k] else 0
  }

  /** One step of the fold: `acc[k] = (acc[k] || 0) + 1`. */
  function Bump(m: map<string, nat>, k: string): map<string, nat> {
    m[k := CountOf(m, k) + 1]
  }

  /** `animals.map(key)`: the key of each animal, in catalogue order. */
  function KeysOf(animals: seq<Animal>, g: Grouping): (ks: seq<string>)
    ensures |ks| == |animals|
    decreases |animals|
  {
    if animals == [] then []
    else KeysOf(animals[..|animals| - 1], g) + [GroupKey(animals[|animals| - 1], g)]
  }

  /** The sum of the counts stored under the keys `ks`. */
  ghost function SumOver(m: map<string, nat>, ks: set<string>): nat
    requires ks <= m.Keys
    decreases ks
  {
    if ks == {} then 0 else var k :| k in ks; m[k] + SumOver(m, ks - {k})
  }

  /** The sum of all counts in `m`. */
  ghost function Total(m: map<string, nat>): nat {
    SumOver(m, m.Keys)
  }

  /**
   * The counting fold, left to right as `reduce` runs it. Each key's count is the number of
   * animals carrying that key, and the counts add up to the number of animals.
   */
  function CountBy(animals: seq<Animal>, g: Grouping): (m: map<string, nat>)
    ensures forall k :: CountOf(m, k) == multiset(KeysOf(animals, g))[k]
    ensures forall k :: k in m ==> m[k] > 0
    ensures Total(m) == |animals|
    decreases |animals|
  {
    if animals == [] then map[]
    else
      var acc := CountBy(animals[..|animals| - 1], g);
      var k := GroupKey(animals[|animals| - 1], g);
      BumpTotal(acc, k);
      Bump(acc, k)
  }

  /** Counting one more animal of the catalogue bumps its key. */
  lemma CountByExtend(animals: seq<Animal>, i: nat, g: Grouping)
    requires i < |animals|
    ensures CountBy(animals[..i + 1], g) == Bump(CountBy(animals[..i], g), GroupKey(animals[i], g))
  {
    assert animals[..i + 1][..i] == animals[..i];
  }

  /** Any key can be taken out of the sum first. */
  lemma {:induction false} SumOverRemove(m: map<string, nat>, ks: set<string>, k: string)
    requires ks <= m.Keys && k in ks
    ensures SumOver(m, ks) == m[k] + SumOver(m, ks - {k})
    decreases ks
  {
    var j :| j in ks && SumOver(m, ks) == m[j] + SumOver(m, ks - {j});
    if j != k {
      SumOverRemove(m, ks - {j}, k);
      SumOverRemove(m, ks - {k}, j);
      assert ks - {j} - {k} == ks - {k} - {j};
    }
  }

  /** Two maps that agree on `ks` have the same sum over `ks`. */
  lemma {:induction false} SumOverAgree(m1: map<string, nat>, m2: map<string, nat>, ks: set<string>)
    requires ks <= m1.Keys && ks <= m2.Keys
    requires forall k :: k in ks ==> m1[k] == m2[k]
    ensures SumOver(m1, ks) == SumOver(m2, ks)
    decreases ks
  {
    if ks != {} {
      var k :| k in ks;
      SumOverRemove(m1, ks, k);
      SumOverRemove(m2, ks, k);
      SumOverAgree(m1, m2, ks - {k});
    }
  }

  /** One step of the fold adds exactly one to the total. */
  lemma BumpTotal(m: map<string, nat>, k: string)
    ensures Total(Bump(m, k)) == Total(m) + 1
  {
    var b := Bump(m, k);
    if k in m {
      assert b.Keys == m.Keys;
      SumOverRemove(b, m.Keys, k);
      SumOverRemove(m, m.Keys, k);
      SumOverAgree(b, m, m.Keys - {k});
    } else {
      assert b.Keys == m.Keys + {k};
      SumOverRemove(b, b.Keys, k);
      assert b.Keys - {k} == m.Keys;
      SumOverAgree(b, m, m.Keys);
    }
  }
}
