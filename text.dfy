/**
 * The string operations the signing code relies on: Python's substring test
 * `marker in text`, and `" ".join(args)` together with its inverse
 * `line.split(" ")`.
 */
module Text {

  /** `marker` occurs in `text` starting at index `i`. */
  ghost predicate OccursAt(text: string, marker: string, i: int)
  {
    0 <= i && i + |marker| <= |text| && text[i..i + |marker|] == marker
  }

  /** An occurrence of `marker` in `text[1..]` is one at the next index of `text`. */
  lemma OccursShift(text: string, marker: string)
    requires |text| > 0
    ensures forall i :: 1 <= i ==> (OccursAt(text, marker, i) <==> OccursAt(text[1..], marker, i - 1))
  {
    forall i | 1 <= i
      ensures OccursAt(text, marker, i) <==> OccursAt(text[1..], marker, i - 1)
    {
      if i + |marker| <= |text| {
        assert text[1..][i - 1..i - 1 + |marker|] == text[i..i + |marker|];
      }
    }
  }

  /** Python's `marker in text`. */
  function Contains(text: string, marker: string): bool
    decreases |text|
  {
    if |text| < |marker| then false
    else if text[..|marker|] == marker then true
    else Contains(text[1..], marker)
  }

  /** `Contains` holds exactly when `marker` occurs somewhere in `text`. */
  lemma {:induction false} ContainsIff(text: string, marker: string)
    ensures Contains(text, marker) <==> exists i :: OccursAt(text, marker, i)
    decreases |text|
  {
    if |text| < |marker| {
    } else if text[..|marker|] == marker {
      assert OccursAt(text, marker, 0);
    } else {
      ContainsIff(text[1..], marker);
      OccursShift(text, marker);
      assert !OccursAt(text, marker, 0);
      if Contains(text, marker) {
        var j :| OccursAt(text[1..], marker, j);
        assert OccursAt(text, marker, j + 1);
      }
      if i :| OccursAt(text, marker, i) {
        assert OccursAt(text[1..], marker, i - 1);
      }
    }
  }

  /** Python's `" ".join(words)`. */
  function JoinWords(words: seq<string>): string
  {
    if |words| == 0 then ""
    else if |words| == 1 then words[0]
    else words[0] + " " + JoinWords(words[1..])
  }

  /** Splitting a line at every single space, as `line.split(" ")` does. */
  function SplitWords(line: string): (r: seq<string>)
    ensures |r| >= 1
  {
    if |line| == 0 then [""]
    else if line[0] == ' ' then [""] + SplitWords(line[1..])
    else
      var rest := SplitWords(line[1..]);
      [[line[0]] + rest[0]] + rest[1..]
  }

  /** A word without spaces in front of a space is split off as it is. */
  lemma {:induction false} SplitWordsFront(w: string, tail: string)
    requires ' ' !in w
    ensures SplitWords(w + " " + tail) == [w] + SplitWords(tail)
    ensures SplitWords(w) == [w]
  {
    if |w| == 0 {
      assert w + " " + tail == [' '] + tail;
      assert (w + " " + tail)[1..] == tail;
    } else {
      SplitWordsFront(w[1..], tail);
      assert (w + " " + tail)[1..] == w[1..] + " " + tail;
      assert [w[0]] + w[1..] == w;
    }
  }

  /** `split(" ")` gives back the words that were joined, as long as none of them holds a space. */
  lemma {:induction false} SplitJoinWords(words: seq<string>)
    requires |words| >= 1
    requires forall k :: 0 <= k < |words| ==> ' ' !in words[k]
    ensures SplitWords(JoinWords(words)) == words
  {
    if |words| == 1 {
      SplitWordsFront(words[0], "");
    } else {
      SplitJoinWords(words[1..]);
      SplitWordsFront(words[0], JoinWords(words[1..]));
      assert [words[0]] + words[1..] == words;
    }
  }
}
