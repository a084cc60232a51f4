/** Substring occurrence, as JavaScript's `String.prototype.includes` tests it. */
module Strings {

  /** `part` occurs in `text` starting at position `i`. */
  predicate OccursAt(text: string, part: string, i: nat) {
    i + |part| <= |text| && text[i..i + |part|] == part
  }

  /** `text.includes(part)`. */
  predicate Includes(text: string, part: string) {
    exists i: nat :: i <= |text| && OccursAt(text, part, i)
  }

  /** An occurrence in a suffix is an occurrence in the whole, shifted by the prefix. */
  lemma IncludesInSuffix(front: string, back: string, part: string)
    requires Includes(back, part)
    ensures Includes(front + back, part)
  {
    var i: nat :| i <= |back| && OccursAt(back, part, i);
    assert (front + back)[|front| + i..|front| + i + |part|] == back[i..i + |part|];
    assert OccursAt(front + back, part, |front| + i);
  }
}
