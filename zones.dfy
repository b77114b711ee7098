/** Promotion of the preferred availability zone to the front of the candidate list. */
module Zones {

  /** Index of the first occurrence of `x` in `s`, or `|s|` when there is none. */
  function Find(s: seq<string>, x: string): (k: nat)
    ensures k <= |s|
    ensures k < |s| ==> s[k] == x
    ensures forall j :: 0 <= j < k ==> s[j] != x
    ensures k == |s| <==> x !in s
  {
    if s == [] then 0
    else if s[0] == x then 0
    else 1 + Find(s[1..], x)
  }

  /** The candidate list once the preferred zone, when non-empty and listed, has traded
      places with the head of the list: a single transposition, not a rotation. */
  function Promoted(s: seq<string>, preferred: string): (r: seq<string>)
  {
    var k := Find(s, preferred);
    if preferred != "" && k < |s| then s[0 := preferred][k := s[0]] else s
  }

  /** The promotion swaps the head with the first occurrence of the preferred zone and
      leaves every other entry where it was. */
  lemma PromotedSwapsHead(s: seq<string>, preferred: string)
    requires preferred != "" && preferred in s
    ensures var r, k := Promoted(s, preferred), Find(s, preferred);
      |r| == |s| && r[0] == preferred && r[k] == s[0] &&
      forall i :: 0 <= i < |s| && i != 0 && i != k ==> r[i] == s[i]
  {
  }

  /** Without a usable preference the list is left as it was. */
  lemma PromotedUnchanged(s: seq<string>, preferred: string)
    requires preferred == "" || preferred !in s
    ensures Promoted(s, preferred) == s
  {
  }

  /** Exchanging the head with entry `k` keeps the multiset of entries. */
  lemma SwapHeadPreservesMultiset(s: seq<string>, k: nat)
    requires 0 < k < |s|
    ensures multiset(s[0 := s[k]][k := s[0]]) == multiset(s)
  {
    var a, b, c, d := s[..1], s[1..k], [s[k]], s[k+1..];
    assert s == a + b + c + d;
    assert s[0 := s[k]][k := s[0]] == c + b + a + d;
  }

  /** Promotion only reorders the zones: every zone is still tried as often as before. */
  lemma PromotedIsPermutation(s: seq<string>, preferred: string)
    ensures multiset(Promoted(s, preferred)) == multiset(s)
  {
    var k := Find(s, preferred);
    if preferred != "" && k < |s| && k > 0 {
      SwapHeadPreservesMultiset(s, k);
    }
  }

  /** The zone list after promotion is not the stable "preferred first" order: with
      `[a, b, c]` and preference `c` the result is `[c, b, a]`, not `[c, a, b]`. */
  lemma PromotionIsNotRotation()
    ensures Promoted(["a", "b", "c"], "c") == ["c", "b", "a"]
  {
    assert Find(["a", "b", "c"], "c") == 2 by {
      assert ["a", "b", "c"][1..] == ["b", "c"];
      assert ["b", "c"][1..] == ["c"];
    }
  }

  /** The in-place loop over the shared zone slice. Each index is visited once and the
      slice is read live, so a later duplicate of the preferred zone meets the zone that
      is already at the head and swaps it with itself. */
  method PromoteZone(azs: array<string>, preferred: string)
    modifies azs
    ensures azs[..] == Promoted(old(azs[..]), preferred)
  {
    if preferred != "" {
      ghost var s := azs[..];
      ghost var k := Find(s, preferred);
      for i := 0 to azs.Length
        invariant azs[..] == if k < i then s[0 := preferred][k := s[0]] else s
      {
        var az := azs[i];
        if az == preferred {
          az := azs[0];
          azs[0] := preferred;
          azs[i] := az;
        }
      }
    }
  }
}
