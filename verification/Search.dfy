/** The signature search of cartridge detection: non-overlapping occurrences counted greedily. */
module Search {
  import opened Words

  /** The needle starts at position i. */
  predicate Occurs(haystack: seq<u8>, needle: seq<u8>, i: nat)
  {
    i + |needle| <= |haystack| && haystack[i..i + |needle|] == needle
  }

  /** Positions of occurrences no two of which overlap. */
  ghost predicate Disjoint(haystack: seq<u8>, needle: seq<u8>, s: set<nat>)
  {
    && (forall p | p in s :: Occurs(haystack, needle, p))
    && (forall p, q | p in s && q in s && p < q :: p + |needle| <= q)
  }

  /** At least m pairwise non-overlapping occurrences exist. */
  ghost predicate Packs(haystack: seq<u8>, needle: seq<u8>, m: nat)
  {
    exists s: set<nat> :: |s| >= m && Disjoint(haystack, needle, s)
  }

  /** What the left-to-right scan picks from position i on. */
  function Greedy(haystack: seq<u8>, needle: seq<u8>, i: nat): set<nat>
    requires needle != []
    decreases |haystack| - i
  {
    if i + |needle| > |haystack| then {}
    else if Occurs(haystack, needle, i) then {i} + Greedy(haystack, needle, i + |needle|)
    else Greedy(haystack, needle, i + 1)
  }

  lemma {:induction false} GreedyIsDisjoint(haystack: seq<u8>, needle: seq<u8>, i: nat)
    requires needle != []
    ensures Disjoint(haystack, needle, Greedy(haystack, needle, i))
    ensures forall p | p in Greedy(haystack, needle, i) :: p >= i
    decreases |haystack| - i
  {
    hide Occurs;
    if i + |needle| <= |haystack| {
      if Occurs(haystack, needle, i) {
        GreedyIsDisjoint(haystack, needle, i + |needle|);
      } else {
        GreedyIsDisjoint(haystack, needle, i + 1);
      }
    }
  }

  lemma CountOne(haystack: seq<u8>, needle: seq<u8>, i: nat)
    requires needle != [] && Occurs(haystack, needle, i)
    ensures |Greedy(haystack, needle, i)| == 1 + |Greedy(haystack, needle, i + |needle|)|
  {
    GreedyIsDisjoint(haystack, needle, i + |needle|);
  }

  /** No choice of non-overlapping occurrences beats the greedy one. */
  lemma {:induction false} GreedyIsMaximal(haystack: seq<u8>, needle: seq<u8>, i: nat, s: set<nat>)
    requires needle != [] && Disjoint(haystack, needle, s) && forall p | p in s :: p >= i
    ensures |s| <= |Greedy(haystack, needle, i)|
    decreases |haystack| - i
  {
    hide Occurs;
    if i + |needle| > |haystack| {
      NoneFits(haystack, needle, i, s);
    } else if Occurs(haystack, needle, i) {
      var later := set p | p in s && p >= i + |needle|;
      GreedyIsMaximal(haystack, needle, i + |needle|, later);
      AtMostOneBefore(haystack, needle, i, s, later);
      CountOne(haystack, needle, i);
    } else {
      GreedyIsMaximal(haystack, needle, i + 1, s);
    }
  }

  lemma NoneFits(haystack: seq<u8>, needle: seq<u8>, i: nat, s: set<nat>)
    requires i + |needle| > |haystack| && Disjoint(haystack, needle, s) && forall p | p in s :: p >= i
    ensures s == {}
  {
  }

  lemma AtMostOneBefore(haystack: seq<u8>, needle: seq<u8>, i: nat, s: set<nat>, later: set<nat>)
    requires needle != [] && Disjoint(haystack, needle, s) && forall p | p in s :: p >= i
    requires later == set p | p in s && p >= i + |needle|
    ensures |s| <= |later| + 1
  {
    hide Occurs;
    if x :| x in s && x !in later {
      assert s == later + {x};
    } else {
      assert s == later;
    }
  }

  /** The greedy count decides packing for every threshold. */
  lemma GreedyDecides(haystack: seq<u8>, needle: seq<u8>, m: nat)
    requires needle != []
    ensures Packs(haystack, needle, m) <==> |Greedy(haystack, needle, 0)| >= m
  {
    hide Disjoint;
    GreedyIsDisjoint(haystack, needle, 0);
    if Packs(haystack, needle, m) {
      var s: set<nat> :| |s| >= m && Disjoint(haystack, needle, s);
      GreedyIsMaximal(haystack, needle, 0, s);
    }
  }

  /**
   True exactly when that many pairwise non-overlapping occurrences exist; a threshold of 0 asks for one,
   and an empty needle is never found.
   */
  method CountBytesAtLeast(haystack: seq<u8>, needle: seq<u8>, minHits: nat) returns (found: bool)
    ensures found <==> needle != [] && Packs(haystack, needle, Max(1, minHits))
  {
    hide Occurs, Packs;
    if needle == [] {
      return false;
    }
    GreedyDecides(haystack, needle, Max(1, minHits));
    if |haystack| < |needle| {
      return false;
    }
    var count, i := 0, 0;
    while i + |needle| <= |haystack|
      invariant count < Max(1, minHits)
      invariant count + |Greedy(haystack, needle, i)| == |Greedy(haystack, needle, 0)|
      decreases |haystack| - i
    {
      if Occurs(haystack, needle, i) {
        CountOne(haystack, needle, i);
        count := count + 1;
        if count >= minHits {
          return true;
        }
        i := i + |needle|;
      } else {
        i := i + 1;
      }
    }
    return false;
  }
}
