/** Substring search on strings: the meaning of Python's `pat in text` when
    both operands are `str`. */
module Text {

  /** `pat` occurs in `text` starting at position `i`. */
  ghost predicate OccursAt(pat: string, text: string, i: int)
  {
    0 <= i <= |text| - |pat| && text[i..i + |pat|] == pat
  }

  /** `pat` occurs in `text` at some position (the reference definition). */
  ghost predicate Occurs(pat: string, text: string)
  {
    exists i :: OccursAt(pat, text, i)
  }

  /** Executable substring test, scanning `text` from the left. */
  function Contains(text: string, pat: string): (b: bool)
    ensures b <==> Occurs(pat, text)
    decreases |text|
  {
    if |text| < |pat| then
      false
    else if text[..|pat|] == pat then
      assert OccursAt(pat, text, 0);
      true
    else
      OccursShift(pat, text);
      Contains(text[1..], pat)
  }

  /** When `pat` is not a prefix of `text`, it occurs in `text` exactly when it
      occurs in `text` without its first character. */
  lemma OccursShift(pat: string, text: string)
    requires |pat| <= |text| && text[..|pat|] != pat
    ensures Occurs(pat, text) <==> Occurs(pat, text[1..])
  {
    if Occurs(pat, text) {
      var i :| OccursAt(pat, text, i);
      assert i != 0;
      assert text[1..][i - 1..i - 1 + |pat|] == text[i..i + |pat|];
      assert OccursAt(pat, text[1..], i - 1);
    }
    if Occurs(pat, text[1..]) {
      var j :| OccursAt(pat, text[1..], j);
      assert text[j + 1..j + 1 + |pat|] == text[1..][j..j + |pat|];
      assert OccursAt(pat, text, j + 1);
    }
  }
}
