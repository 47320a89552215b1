/** Where one text occurs in another. */
module Strings {

  predicate OccursAt(whole: string, part: string, i: nat) {
    i + |part| <= |whole| && whole[i..i + |part|] == part
  }

  ghost predicate Contains(whole: string, part: string) {
    exists i: nat :: OccursAt(whole, part, i)
  }

  lemma ContainsMore(whole: string, longer: string, part: string)
    requires whole <= longer && Contains(whole, part)
    ensures Contains(longer, part)
  {
    var i: nat :| OccursAt(whole, part, i);
    assert OccursAt(longer, part, i);
  }

  lemma ContainsBetween(front: string, part: string, back: string)
    ensures Contains(front + part + back, part)
  {
    assert OccursAt(front + part + back, part, |front|);
  }

  lemma ContainsShifted(front: string, whole: string, part: string)
    requires Contains(whole, part)
    ensures Contains(front + whole, part)
  {
    var i: nat :| OccursAt(whole, part, i);
    assert (front + whole)[|front| + i..|front| + i + |part|] == whole[i..i + |part|];
    assert OccursAt(front + whole, part, |front| + i);
  }

  /** The text ends with this one. */
  predicate EndsWith(whole: string, end: string) {
    |end| <= |whole| && whole[|whole| - |end|..] == end
  }
}
