/** Text helpers behind the message matching of the action adjuster:
    ASCII lower-casing (the model of Python's `str.lower`) and substring
    search (the model of Python's `needle in text`). */
module Text {

  /** True for the ASCII capital letters 'A'..'Z'. */
  predicate IsUpper(c: char) {
    'A' <= c <= 'Z'
  }

  /** Lower-cases one ASCII capital letter; every other character is kept. */
  function LowerChar(c: char): (r: char)
    ensures !IsUpper(r)
    ensures !IsUpper(c) ==> r == c
    ensures IsUpper(c) ==> r as int - c as int == 'a' as int - 'A' as int
  {
    if IsUpper(c) then (c as int - 'A' as int + 'a' as int) as char else c
  }

  /** The message with every ASCII capital letter lower-cased. */
  function Lower(s: string): (r: string)
    ensures |r| == |s|
    ensures forall i :: 0 <= i < |s| ==> r[i] == LowerChar(s[i])
    ensures forall i :: 0 <= i < |r| ==> !IsUpper(r[i])
  {
    if s == [] then [] else [LowerChar(s[0])] + Lower(s[1..])
  }

  /** Lower-casing twice is lower-casing once. */
  lemma LowerIdempotent(s: string)
    ensures Lower(Lower(s)) == Lower(s)
  {
  }

  /** `pat` occurs in `text` starting at index `i`. */
  predicate OccursAt(text: string, pat: string, i: int) {
    0 <= i && i + |pat| <= |text| && text[i..i + |pat|] == pat
  }

  /** Substring search: `pat` occurs somewhere in `text` (the empty pattern
      occurs in every text). The ensures ties the search to the reference
      definition by position. */
  function Contains(text: string, pat: string): (b: bool)
    ensures b <==> exists i :: OccursAt(text, pat, i)
  {
    if pat <= text then
      assert OccursAt(text, pat, 0);
      true
    else if text == [] then
      assert forall i :: !OccursAt(text, pat, i);
      false
    else
      var rest := Contains(text[1..], pat);
      assert !OccursAt(text, pat, 0);
      assert forall i :: OccursAt(text, pat, i) ==> OccursAt(text[1..], pat, i - 1);
      assert rest ==> exists i :: OccursAt(text, pat, i) by {
        if rest {
          var j :| OccursAt(text[1..], pat, j);
          assert text[j + 1..j + 1 + |pat|] == text[1..][j..j + |pat|];
          assert OccursAt(text, pat, j + 1);
        }
      }
      rest
  }

  /** A pattern whose first character appears nowhere in the text does not occur in it. */
  lemma AbsentFirstChar(text: string, pat: string)
    requires |pat| > 0
    requires forall i :: 0 <= i < |text| ==> text[i] != pat[0]
    ensures !Contains(text, pat)
  {
    forall i | 0 <= i && i + |pat| <= |text|
      ensures !OccursAt(text, pat, i)
    {
      assert text[i..i + |pat|][0] == text[i] != pat[0];
    }
  }
}
