/** The competition map tables: token codes, arena (wall) marker codes and the
    slot nearest to each starting corner. */
module GameMap {
  import opened Util

  /** Python's `range(lo, hi, step)` for a positive step. */
  function Range(lo: int, hi: int, step: nat): (r: seq<int>)
    requires step > 0
    decreases hi - lo
  {
    if lo >= hi then [] else [lo] + Range(lo + step, hi, step)
  }

  /** `range(lo, hi)` with unit step. */
  function Span(lo: int, hi: int): seq<int> {
    Range(lo, hi, 1)
  }

  /** Every element of `range(lo, hi, step)` lies in [lo, hi) and sits a
      multiple of `step` above `lo`; consecutive elements differ by `step`. */
  lemma {:induction false} RangeShape(lo: int, hi: int, step: nat)
    requires step > 0
    ensures forall i :: 0 <= i < |Range(lo, hi, step)| ==>
      Range(lo, hi, step)[i] == lo + i * step && lo <= Range(lo, hi, step)[i] < hi
    decreases hi - lo
  {
    if lo < hi {
      RangeShape(lo + step, hi, step);
      var r := Range(lo, hi, step);
      forall i | 0 <= i < |r|
        ensures r[i] == lo + i * step && lo <= r[i] < hi
      {
        if i > 0 {
          assert r[i] == Range(lo + step, hi, step)[i - 1];
        }
      }
    }
  }

  /** `range(lo, hi)` holds exactly the integers lo <= x < hi, hi - lo of them. */
  lemma {:induction false} SpanMembers(lo: int, hi: int)
    ensures forall x :: x in Span(lo, hi) <==> lo <= x < hi
    ensures |Span(lo, hi)| == if lo < hi then hi - lo else 0
    decreases hi - lo
  {
    if lo < hi {
      SpanMembers(lo + 1, hi);
      assert Span(lo, hi) == [lo] + Span(lo + 1, hi);
    }
  }

  /** get_our_tokens: the token codes that belong to the team starting in `corner`. */
  function OurTokens(corner: int): seq<int> {
    Range(40 + corner, 49 + corner, 4)
  }

  /** The team's token codes are three codes, 40, 44 and 48 above the corner. */
  lemma OurTokensAre(corner: int)
    ensures OurTokens(corner) == [40 + corner, 44 + corner, 48 + corner]
  {
    assert Range(52 + corner, 49 + corner, 4) == [];
    assert Range(48 + corner, 49 + corner, 4) == [48 + corner];
    assert Range(44 + corner, 49 + corner, 4) == [44 + corner, 48 + corner];
  }

  /** The team's token codes increase strictly in steps of four. */
  lemma OurTokensStep(corner: int)
    ensures |OurTokens(corner)| == 3
    ensures forall i :: 0 <= i < 2 ==> OurTokens(corner)[i + 1] == OurTokens(corner)[i] + 4
  {
    OurTokensAre(corner);
  }

  /** Every token code of a corner 0..3 is congruent to that corner mod 4. */
  lemma OurTokensResidue(corner: int)
    requires 0 <= corner < 4
    ensures forall c :: c in OurTokens(corner) ==> c % 4 == corner
  {
    OurTokensAre(corner);
  }

  /** Hence two different corners never share a token code. */
  lemma OurTokensDisjoint(c1: int, c2: int)
    requires 0 <= c1 < 4 && 0 <= c2 < 4 && c1 != c2
    ensures forall c :: c in OurTokens(c1) ==> c !in OurTokens(c2)
  {
    OurTokensResidue(c1);
    OurTokensResidue(c2);
  }

  /** get_arena_codes_for_corner: the wall marker codes of a corner's zone;
      any corner outside 0..3 falls through to None. */
  function ArenaCodes(corner: int): (r: Option<seq<int>>)
    ensures r.Some? <==> 0 <= corner < 4
  {
    if corner == 0 then Some(Span(0, 3) + Span(25, 28))
    else if corner == 1 then Some(Span(18, 24))
    else if corner == 2 then Some(Span(11, 17))
    else if corner == 3 then Some(Span(4, 10))
    else None
  }

  /** The arena codes of each corner, as sets of codes. */
  lemma ArenaCodeSets(corner: int)
    requires 0 <= corner < 4
    ensures corner == 0 ==> forall x :: x in ArenaCodes(corner).value <==> x in {0, 1, 2, 25, 26, 27}
    ensures corner == 1 ==> forall x :: x in ArenaCodes(corner).value <==> 18 <= x < 24
    ensures corner == 2 ==> forall x :: x in ArenaCodes(corner).value <==> 11 <= x < 17
    ensures corner == 3 ==> forall x :: x in ArenaCodes(corner).value <==> 4 <= x < 10
  {
    SpanMembers(0, 3);
    SpanMembers(25, 28);
    SpanMembers(18, 24);
    SpanMembers(11, 17);
    SpanMembers(4, 10);
  }

  /** Each corner owns exactly six arena codes. */
  lemma ArenaCodeCount(corner: int)
    requires 0 <= corner < 4
    ensures |ArenaCodes(corner).value| == 6
  {
    SpanMembers(0, 3);
    SpanMembers(25, 28);
    SpanMembers(18, 24);
    SpanMembers(11, 17);
    SpanMembers(4, 10);
  }

  /** No arena code belongs to two corners. */
  lemma ArenaCodesDisjoint(c1: int, c2: int)
    requires 0 <= c1 < 4 && 0 <= c2 < 4 && c1 != c2
    ensures forall x :: x in ArenaCodes(c1).value ==> x !in ArenaCodes(c2).value
  {
    ArenaCodeSets(c1);
    ArenaCodeSets(c2);
  }

  /** closest_slot: the code of the slot nearest each starting corner. */
  function ClosestSlot(corner: int): (r: Option<int>)
    ensures r.Some? <==> 0 <= corner < 4
  {
    if corner == 0 then Some(32)
    else if corner == 1 then Some(39)
    else if corner == 2 then Some(36)
    else if corner == 3 then Some(35)
    else None
  }

  /** Different corners have different closest slots, all slot codes 32..39. */
  lemma ClosestSlotDistinct(c1: int, c2: int)
    requires 0 <= c1 < 4 && 0 <= c2 < 4
    ensures 32 <= ClosestSlot(c1).value <= 39
    ensures c1 != c2 ==> ClosestSlot(c1) != ClosestSlot(c2)
  {
  }
}
