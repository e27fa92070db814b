/** The two string operations of the host language that the filter relies on:
    lower-casing and substring search. */
module Text {

  /** Lower case of one character: the ASCII capitals and the Latin-1
      capitals (U+00C0..U+00DE except the multiplication sign U+00D7) map to
      the letter 32 code points above; every other character is its own
      lower case. */
  function LowerChar(c: char): (r: char)
    ensures !IsCapital(r)
    ensures r != c ==> IsCapital(c) && r as int == c as int + 32
  {
    if IsCapital(c)
    then (c as int + 32) as char
    else c
  }

  /** The capitals `LowerChar` maps down. */
  predicate IsCapital(c: char)
  {
    'A' <= c <= 'Z' || ('À' <= c <= 'Þ' && c != '×')
  }

  /** Lower-casing a character twice is lower-casing it once. */
  lemma LowerCharIdempotent(c: char)
    ensures LowerChar(LowerChar(c)) == LowerChar(c)
  {
  }

  /** The lower-cased string, character by character. */
  function ToLower(s: string): (r: string)
    ensures |r| == |s|
    ensures forall i :: 0 <= i < |s| ==> r[i] == LowerChar(s[i])
  {
    if s == [] then [] else [LowerChar(s[0])] + ToLower(s[1..])
  }

  /** `needle` occurs in `hay` starting at position `i`. */
  ghost predicate OccursAt(hay: string, needle: string, i: int)
  {
    0 <= i && i + |needle| <= |hay| && hay[i..i + |needle|] == needle
  }

  /** `needle` occurs somewhere in `hay`. */
  ghost predicate Occurs(hay: string, needle: string)
  {
    exists i :: OccursAt(hay, needle, i)
  }

  /** Substring search, tried position by position from the left. */
  predicate Includes(hay: string, needle: string)
    ensures needle == "" ==> Includes(hay, needle)
    ensures Includes(hay, needle) ==> |needle| <= |hay|
    decreases |hay|
  {
    needle <= hay || (hay != [] && Includes(hay[1..], needle))
  }

  /** An occurrence at position `i` is found by the search. */
  lemma {:induction false} OccurrenceFound(hay: string, needle: string, i: int)
    requires OccursAt(hay, needle, i)
    ensures Includes(hay, needle)
    decreases i
  {
    if i == 0 {
      assert hay[..|needle|] == needle;
    } else {
      assert hay[1..][i - 1..i - 1 + |needle|] == hay[i..i + |needle|];
      OccurrenceFound(hay[1..], needle, i - 1);
    }
  }

  /** A successful search has an occurrence to show for it. */
  lemma {:induction false} FoundOccurrence(hay: string, needle: string) returns (i: nat)
    requires Includes(hay, needle)
    ensures OccursAt(hay, needle, i)
    decreases |hay|
  {
    if needle <= hay {
      i := 0;
      assert hay[0..|needle|] == needle;
    } else {
      var j := FoundOccurrence(hay[1..], needle);
      i := j + 1;
      assert hay[1..][j..j + |needle|] == hay[i..i + |needle|];
    }
  }

  /** The search succeeds exactly when the needle occurs at some position. */
  lemma IncludesIff(hay: string, needle: string)
    ensures Includes(hay, needle) <==> Occurs(hay, needle)
  {
    if Includes(hay, needle) {
      var i := FoundOccurrence(hay, needle);
    }
    if Occurs(hay, needle) {
      var i :| OccursAt(hay, needle, i);
      OccurrenceFound(hay, needle, i);
    }
  }

  /** The empty string occurs in every string. */
  lemma EmptyIncluded(hay: string)
    ensures Includes(hay, "")
  {
  }
}
