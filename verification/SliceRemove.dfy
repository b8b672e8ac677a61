/**
 Removing a string from a slice in place, as Go does it: the loop ranges over the old slice header
 while the shifts change the backing array and shorten only the new header.
 */
module SliceRemove {

  /** What the loop keeps: an element right after a removed one is never looked at. */
  function Dropped(list: seq<string>, s: string): seq<string> {
    if list == [] then []
    else if list[0] != s then [list[0]] + Dropped(list[1..], s)
    else if |list| == 1 then []
    else [list[1]] + Dropped(list[2..], s)
  }

  function Without(list: seq<string>, s: string): seq<string> {
    if list == [] then [] else (if list[0] == s then [] else [list[0]]) + Without(list[1..], s)
  }

  /** s stands twice in a row somewhere. */
  ghost predicate Adjacent(list: seq<string>, s: string) {
    exists i :: 0 <= i < |list| - 1 && list[i] == s == list[i + 1]
  }

  /** The list ends with s and has it before as well. */
  predicate EndsAgain(list: seq<string>, s: string) {
    list != [] && list[|list| - 1] == s && s in list[..|list| - 1]
  }

  ghost predicate AtMostOnce(list: seq<string>, s: string) {
    forall i, j | 0 <= i < j < |list| :: list[i] != s || list[j] != s
  }

  /** append(list[:i], list[i+1:]...) on a list of length n, within the backing array. */
  method ShiftLeft(a: array<string>, i: nat, n: nat)
    requires i < n <= a.Length
    modifies a
    ensures a[..] == old(a[..i] + a[i + 1..n] + a[n - 1..])
  {
    for j := i to n - 1
      invariant a[..j] == old(a[..i] + a[i + 1..j + 1])
      invariant a[j..] == old(a[j..])
    {
      a[j] := a[j + 1];
    }
    assert a[..] == a[..n - 1] + a[n - 1..];
  }

  /**
   The array after i rounds of the loop over list, with list length n: what is kept so far, what is still
   to come shifted left, and behind n only copies of the last element.
   */
  ghost predicate Shifted(list: seq<string>, s: string, array': seq<string>, n: nat, i: nat) {
    && |array'| == |list| && n <= |list| && i <= |list|
    && (n == |list| ==> array' == list && s !in list[..i])
    && (n < |list| ==> s in list[..i])
    && (forall j | n <= j < |list| :: array'[j] == list[|list| - 1])
    && (if i <= n then
          array'[i..n] == list[i + (|list| - n)..]
              && array'[..i] + Dropped(list[i + (|list| - n)..], s) == Dropped(list, s)
        else
          array'[..n] == Dropped(list, s))
    && (i == |list| ==> !EndsAgain(list, s))
  }

  lemma FirstRound(list: seq<string>, s: string)
    ensures Shifted(list, s, list, |list|, 0)
  {
    assert [] + Dropped(list, s) == Dropped(list, s);
  }

  lemma LastRound(list: seq<string>, s: string, array': seq<string>, n: nat)
    requires n <= |list| && Shifted(list, s, array', n, |list|)
    ensures !EndsAgain(list, s) && array'[..n] == Dropped(list, s)
  {
    assert Dropped([], s) == [] && array'[..n] + [] == array'[..n];
  }

  lemma NextRound(list: seq<string>, s: string, array': seq<string>, n: nat, i: nat)
    requires i < |list| && Shifted(list, s, array', n, i)
    ensures array'[i] != s ==> Shifted(list, s, array', n, i + 1)
    ensures array'[i] == s && i >= n ==> EndsAgain(list, s)
  {
    assert list[..i + 1] == list[..i] + [list[i]];
    var k := |list| - n;
    if i < n {
      assert array'[i] == array'[i..n][0] == list[i + k];
      assert list[i + k..][1..] == list[i + 1 + k..] && array'[i..n][1..] == array'[i + 1..n];
      assert array'[..i + 1] == array'[..i] + [array'[i]];
    } else if i == n {
      assert list[i + k..] == [] && array'[..i] + [] == array'[..n];
    }
    if array'[i] == s && i >= n {
      assert list[..i] <= list[..|list| - 1];
    }
  }

  lemma NextShift(list: seq<string>, s: string, array': seq<string>, n: nat, i: nat)
    requires i < n && i < |list| && Shifted(list, s, array', n, i) && array'[i] == s
    ensures Shifted(list, s, array'[..i] + array'[i + 1..n] + array'[n - 1..], n - 1, i + 1)
  {
    var k := |list| - n;
    var shifted := array'[..i] + array'[i + 1..n] + array'[n - 1..];
    assert list[..i + 1] == list[..i] + [list[i]];
    ShiftedRest(list, s, array', n, i);
    hide Dropped;
    assert forall j | n - 1 <= j < |list| :: shifted[j] == list[|list| - 1] by {
      assert forall j | n - 1 <= j < |list| :: shifted[j] == array'[j];
      assert array'[n - 1] == array'[i..n][n - 1 - i] == list[i + k..][n - 1 - i];
    }
  }

  lemma ShiftedRest(list: seq<string>, s: string, array': seq<string>, n: nat, i: nat)
    requires |array'| == |list| && i < n <= |list| && array'[i] == s
    requires array'[i..n] == list[i + (|list| - n)..]
    requires array'[..i] + Dropped(list[i + (|list| - n)..], s) == Dropped(list, s)
    ensures var shifted := array'[..i] + array'[i + 1..n] + array'[n - 1..];
            if i + 1 < n then
              && shifted[i + 1..n - 1] == list[i + 1 + (|list| - (n - 1))..]
              && shifted[..i + 1] + Dropped(list[i + 1 + (|list| - (n - 1))..], s) == Dropped(list, s)
            else
              shifted[..n - 1] == Dropped(list, s)
  {
    var k := |list| - n;
    var rest := list[i + k..];
    var shifted := array'[..i] + array'[i + 1..n] + array'[n - 1..];
    assert rest[0] == array'[i..n][0] == s;
    if i + 1 < n {
      assert rest[1] == array'[i..n][1] == shifted[i];
      assert rest[2..] == list[i + 1 + (k + 1)..];
      assert shifted[i + 1..n - 1] == array'[i..n][2..];
      assert shifted[..i + 1] == array'[..i] + [rest[1]];
    } else {
      assert |rest| == 1 && shifted[..n - 1] == array'[..i];
      assert array'[..i] + [] == array'[..i];
    }
  }

  /**
   a is the backing array and the ranged-over slice, n the length of the new slice header. Slicing
   beyond n is Go's panic.
   */
  method Remove(a: array<string>, s: string) returns (n: nat, panicked: bool)
    modifies a
    ensures panicked <==> EndsAgain(old(a[..]), s)
    ensures !panicked ==> n <= a.Length && a[..n] == Dropped(old(a[..]), s)
  {
    hide Shifted, Dropped, EndsAgain;
    ghost var list := a[..];
    n := a.Length;
    FirstRound(list, s);
    for i := 0 to a.Length
      invariant n <= a.Length && Shifted(list, s, a[..], n, i)
    {
      NextRound(list, s, a[..], n, i);
      if a[i] == s {
        if i + 1 > n {
          return n, true;
        }
        NextShift(list, s, a[..], n, i);
        ShiftLeft(a, i, n);
        n := n - 1;
      }
    }
    LastRound(list, s, a[..], n);
    panicked := false;
  }

  lemma {:induction false} DroppedLeaves(list: seq<string>, s: string)
    ensures s in Dropped(list, s) <==> Adjacent(list, s)
  {
    if list == [] {
    } else if list[0] != s {
      DroppedLeaves(list[1..], s);
      AdjacentTail(list, s);
    } else if |list| > 1 {
      DroppedLeaves(list[2..], s);
      AdjacentTail(list, s);
      AdjacentTail(list[1..], s);
      assert list[1..][1..] == list[2..];
    }
  }

  lemma AdjacentTail(list: seq<string>, s: string)
    requires list != []
    ensures Adjacent(list, s) <==> Adjacent(list[1..], s) || (|list| > 1 && list[0] == s == list[1])
  {
    var tail := list[1..];
    if i :| 0 <= i < |tail| - 1 && tail[i] == s == tail[i + 1] {
      assert list[i + 1] == s == list[i + 2];
    }
    if i :| 0 <= i < |list| - 1 && list[i] == s == list[i + 1] && i > 0 {
      assert tail[i - 1] == s == tail[i];
    }
  }

  lemma {:induction false} DroppedIsWithout(list: seq<string>, s: string)
    requires !Adjacent(list, s)
    ensures Dropped(list, s) == Without(list, s)
  {
    if list != [] {
      AdjacentTail(list, s);
      if list[0] != s {
        DroppedIsWithout(list[1..], s);
      } else if |list| > 1 {
        AdjacentTail(list[1..], s);
        assert list[1..][1..] == list[2..];
        DroppedIsWithout(list[2..], s);
      }
    }
  }

  lemma {:induction false} WithoutRemoves(list: seq<string>, s: string)
    ensures s !in Without(list, s)
  {
    if list != [] {
      WithoutRemoves(list[1..], s);
    }
  }

  /**
   Exactly when removal works: it neither panics nor leaves s behind if and only if s does not stand
   twice in a row and the list does not end with a repeated s. It then keeps all other elements in order,
   and that covers every list with at most one s.
   */
  lemma {:induction false} RemovalWorksIff(list: seq<string>, s: string)
    ensures !EndsAgain(list, s) && s !in Dropped(list, s) <==> !EndsAgain(list, s) && !Adjacent(list, s)
    ensures !Adjacent(list, s) ==> Dropped(list, s) == Without(list, s)
    ensures AtMostOnce(list, s) ==> !EndsAgain(list, s) && !Adjacent(list, s)
  {
    DroppedLeaves(list, s);
    if !Adjacent(list, s) {
      DroppedIsWithout(list, s);
    }
  }
}
