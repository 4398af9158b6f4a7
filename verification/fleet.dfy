/**
 * The fleet of a game: an ordered sequence of ships, matched by name, that
 * shrinks as the server reports ships sunk.
 */
module Fleet {

  /** A ship of the roster; `Is` is the matching predicate (`Ship#is?`), name equality. */
  datatype Ship = Ship(name: string) {
    predicate Is(n: string) {
      name == n
    }
  }

  /** True when some ship of `fleet` is called `n`. */
  predicate HasMatch(fleet: seq<Ship>, n: string) {
    exists j :: 0 <= j < |fleet| && fleet[j].Is(n)
  }

  /** True when `k` is the index of the first ship of `fleet` called `n` (what `find` returns). */
  predicate IsFirstMatch(fleet: seq<Ship>, n: string, k: nat) {
    k < |fleet| && fleet[k].Is(n) && forall j :: 0 <= j < k ==> !fleet[j].Is(n)
  }

  /**
   * The fleet after `ships.delete(ships.find { |ship| ship.is? n })`: the first
   * ship called `n` is taken out, and nothing happens when there is none.
   */
  function RemoveFirst(fleet: seq<Ship>, n: string): (r: seq<Ship>)
    ensures |r| <= |fleet|
  {
    if fleet == [] then []
    else if fleet[0].Is(n) then fleet[1..]
    else [fleet[0]] + RemoveFirst(fleet[1..], n)
  }

  /** `a` is `b` with some of its elements left out, the rest in their order. */
  predicate IsSubsequence(a: seq<Ship>, b: seq<Ship>)
    decreases |b|
  {
    if a == [] then true
    else if b == [] then false
    else (a[0] == b[0] && IsSubsequence(a[1..], b[1..])) || IsSubsequence(a, b[1..])
  }

  /** Removing the first match cuts the fleet exactly at that match. */
  lemma {:induction false} RemoveFirstAt(fleet: seq<Ship>, n: string, k: nat)
    requires IsFirstMatch(fleet, n, k)
    ensures RemoveFirst(fleet, n) == fleet[..k] + fleet[k + 1..]
  {
    if k > 0 {
      RemoveFirstAt(fleet[1..], n, k - 1);
      assert fleet[1..][..k - 1] + fleet[1..][k..] == fleet[1..k] + fleet[k + 1..];
      assert fleet[..k] == [fleet[0]] + fleet[1..k];
    }
  }

  /** With no ship of that name the fleet is left as it is. */
  lemma {:induction false} RemoveFirstNoMatch(fleet: seq<Ship>, n: string)
    requires !HasMatch(fleet, n)
    ensures RemoveFirst(fleet, n) == fleet
  {
    if fleet != [] {
      assert !fleet[0].Is(n);
      assert !HasMatch(fleet[1..], n) by {
        forall j | 0 <= j < |fleet[1..]| ensures !fleet[1..][j].Is(n) {
          assert fleet[1..][j] == fleet[j + 1];
        }
      }
      RemoveFirstNoMatch(fleet[1..], n);
      assert [fleet[0]] + fleet[1..] == fleet;
    }
  }

  /** Some ship has the name iff there is a first one that does. */
  lemma {:induction false} FirstMatchExists(fleet: seq<Ship>, n: string)
    requires HasMatch(fleet, n)
    ensures exists k: nat :: IsFirstMatch(fleet, n, k)
  {
    if fleet[0].Is(n) {
      assert IsFirstMatch(fleet, n, 0);
    } else {
      var j :| 0 <= j < |fleet| && fleet[j].Is(n);
      assert fleet[1..][j - 1] == fleet[j];
      FirstMatchExists(fleet[1..], n);
      var k: nat :| IsFirstMatch(fleet[1..], n, k);
      assert forall i :: 0 < i <= k ==> fleet[i] == fleet[1..][i - 1];
      assert IsFirstMatch(fleet, n, k + 1);
    }
  }

  /** The fleet loses exactly one ship iff one has the name; otherwise it is unchanged. */
  lemma {:induction false} RemoveFirstCount(fleet: seq<Ship>, n: string)
    ensures HasMatch(fleet, n) <==> |RemoveFirst(fleet, n)| == |fleet| - 1
    ensures !HasMatch(fleet, n) <==> RemoveFirst(fleet, n) == fleet
  {
    if HasMatch(fleet, n) {
      FirstMatchExists(fleet, n);
      var k: nat :| IsFirstMatch(fleet, n, k);
      RemoveFirstAt(fleet, n, k);
    } else {
      RemoveFirstNoMatch(fleet, n);
    }
  }

  /** Exactly one ship equal to `Ship(n)` leaves the multiset of ships, if there is one. */
  lemma {:induction false} RemoveFirstMultiset(fleet: seq<Ship>, n: string)
    ensures multiset(RemoveFirst(fleet, n)) == multiset(fleet) - multiset{Ship(n)}
  {
    if fleet != [] {
      assert fleet == [fleet[0]] + fleet[1..];
      if !fleet[0].Is(n) {
        RemoveFirstMultiset(fleet[1..], n);
        assert fleet[0] != Ship(n);
      }
    }
  }

  /** The remaining ships keep their relative order. */
  lemma {:induction false} RemoveFirstIsSubsequence(fleet: seq<Ship>, n: string)
    ensures IsSubsequence(RemoveFirst(fleet, n), fleet)
  {
    if fleet != [] {
      if fleet[0].Is(n) {
        SubsequenceOfTail(fleet[1..], fleet);
      } else {
        RemoveFirstIsSubsequence(fleet[1..], n);
        assert ([fleet[0]] + RemoveFirst(fleet[1..], n))[1..] == RemoveFirst(fleet[1..], n);
      }
    }
  }

  /** Every sequence is a subsequence of itself. */
  lemma {:induction false} SubsequenceReflexive(a: seq<Ship>)
    ensures IsSubsequence(a, a)
    decreases |a|
  {
    if a != [] {
      SubsequenceReflexive(a[1..]);
    }
  }

  /** Dropping the head of `b` leaves its tail a subsequence of `b`. */
  lemma SubsequenceOfTail(t: seq<Ship>, b: seq<Ship>)
    requires b != [] && t == b[1..]
    ensures IsSubsequence(t, b)
  {
    SubsequenceReflexive(t);
  }

  /** Subsequences compose, so the fleet never regrows over any run of operations. */
  lemma {:induction false} SubsequenceTransitive(a: seq<Ship>, b: seq<Ship>, c: seq<Ship>)
    requires IsSubsequence(a, b) && IsSubsequence(b, c)
    ensures IsSubsequence(a, c)
    decreases |c|
  {
    if a != [] {
      assert b != [] && c != [];
      if b[0] == c[0] && IsSubsequence(b[1..], c[1..]) {
        if a[0] == b[0] && IsSubsequence(a[1..], b[1..]) {
          SubsequenceTransitive(a[1..], b[1..], c[1..]);
        } else {
          SubsequenceTransitive(a, b[1..], c[1..]);
        }
      } else {
        SubsequenceTransitive(a, b, c[1..]);
      }
    }
  }

  /** A subsequence is never longer and holds no ship the other lacks. */
  lemma {:induction false} SubsequenceShrinks(a: seq<Ship>, b: seq<Ship>)
    requires IsSubsequence(a, b)
    ensures |a| <= |b| && multiset(a) <= multiset(b)
    decreases |b|
  {
    if a != [] {
      assert b == [b[0]] + b[1..];
      if a[0] == b[0] && IsSubsequence(a[1..], b[1..]) {
        SubsequenceShrinks(a[1..], b[1..]);
        assert a == [a[0]] + a[1..];
      } else {
        SubsequenceShrinks(a, b[1..]);
      }
    }
  }
}
