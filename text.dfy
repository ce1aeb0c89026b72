/**
 * Line splitting of widget text. Interface text marks a line break with the
 * two characters backslash and 'n' (a textual marker, not a control
 * character); the renderer cuts the text at each marker, left to right.
 */
module TextLayout {

  /** The two-character line-break marker. */
  const Marker: string := "\\n"

  predicate MarkerAt(t: string, i: int) {
    0 <= i && i + 2 <= |t| && t[i] == '\\' && t[i + 1] == 'n'
  }

  predicate HasMarker(t: string) {
    exists i | 0 <= i < |t| :: MarkerAt(t, i)
  }

  predicate EndsWithMarker(t: string) {
    |t| >= 2 && MarkerAt(t, |t| - 2)
  }

  /** `text.indexOf("\\n")`: the first position of the marker, or -1. */
  function IndexOf(t: string): (r: int)
    ensures r == -1 || (0 <= r && r + 2 <= |t|)
  {
    IndexFrom(t, 0)
  }

  /** The first position of the marker at or after `from`, or -1. */
  function IndexFrom(t: string, from: nat): (r: int)
    ensures r == -1 || (from <= r && r + 2 <= |t|)
    decreases |t| - from
  {
    if from + 2 > |t| then -1
    else if MarkerAt(t, from) then from
    else IndexFrom(t, from + 1)
  }

  /** IndexFrom finds the first marker at or after `from`, and -1 means there is none there. */
  lemma {:induction false} IndexFromFirst(t: string, from: nat)
    ensures var r := IndexFrom(t, from);
      (r == -1 || from <= r < |t|) &&
      (r == -1 <==> forall i :: from <= i ==> !MarkerAt(t, i)) &&
      (r != -1 ==> MarkerAt(t, r) && forall j :: from <= j < r ==> !MarkerAt(t, j))
    decreases |t| - from
  {
    if from + 2 <= |t| && !MarkerAt(t, from) {
      IndexFromFirst(t, from + 1);
    }
  }

  /** `indexOf` yields -1 exactly when the text has no marker, and otherwise the first marker's position. */
  lemma IndexOfFirst(t: string)
    ensures var r := IndexOf(t);
      -1 <= r < |t| &&
      (r == -1 <==> !HasMarker(t)) &&
      (r != -1 ==> MarkerAt(t, r) && forall j :: 0 <= j < r ==> !MarkerAt(t, j))
  {
    IndexFromFirst(t, 0);
  }

  /**
   * The lines the renderer draws, in order: repeatedly the text before the
   * first marker, then the rest after it; the last piece is what is left
   * once no marker remains. An empty remainder ends the loop.
   */
  function SplitLines(t: string): (lines: seq<string>)
    decreases |t|
  {
    if |t| == 0 then []
    else
      var i := IndexOf(t);
      if i == -1 then [t]
      else [t[..i]] + SplitLines(t[i + 2..])
  }

  /** Empty text has no lines, any other text at least one, and no line holds the marker. */
  lemma {:induction false} SplitLinesNoMarker(t: string)
    ensures var lines := SplitLines(t);
      (|lines| == 0 <==> |t| == 0) &&
      forall k :: 0 <= k < |lines| ==> !HasMarker(lines[k])
    decreases |t|
  {
    if |t| > 0 {
      var i := IndexOf(t);
      IndexOfFirst(t);
      if i != -1 {
        var first := t[..i];
        assert forall j :: MarkerAt(first, j) ==> MarkerAt(t, j);
        SplitLinesNoMarker(t[i + 2..]);
        assert SplitLines(t) == [first] + SplitLines(t[i + 2..]);
      }
    }
  }

  /** Lines joined back together with the marker between them. */
  function JoinLines(lines: seq<string>): string
  {
    if |lines| == 0 then ""
    else if |lines| == 1 then lines[0]
    else lines[0] + Marker + JoinLines(lines[1..])
  }

  /**
   * Splitting loses nothing but a single trailing marker: joining the lines
   * gives back the text exactly when it does not end with the marker, and
   * the text without its last marker when it does.
   */
  lemma {:induction false} JoinSplitLines(t: string)
    ensures JoinLines(SplitLines(t)) == if EndsWithMarker(t) then t[..|t| - 2] else t
    decreases |t|
  {
    if |t| > 0 {
      var i := IndexOf(t);
      IndexOfFirst(t);
      if i == -1 {
        assert !EndsWithMarker(t);
      } else {
        var rest := t[i + 2..];
        JoinSplitLines(rest);
        if |rest| == 0 {
          assert SplitLines(t) == [t[..i]];
          assert t == t[..i] + Marker;
        } else {
          JoinCut(t, i, SplitLines(rest));
          MarkerSuffix(t, i);
        }
      }
    }
  }

  /** Joining the first line and the lines after it puts the marker back where it was cut. */
  lemma JoinCut(t: string, i: nat, tail: seq<string>)
    requires MarkerAt(t, i) && |tail| > 0
    ensures JoinLines([t[..i]] + tail) == t[..i] + Marker + JoinLines(tail)
  {
    assert ([t[..i]] + tail)[1..] == tail;
  }

  /**
   * When the text continues after the marker at i, it ends with a marker
   * exactly when that continuation does, and dropping the last marker of the
   * text drops the last marker of the continuation.
   */
  lemma MarkerSuffix(t: string, i: nat)
    requires MarkerAt(t, i) && i + 2 < |t|
    ensures t == t[..i] + Marker + t[i + 2..]
    ensures EndsWithMarker(t) <==> EndsWithMarker(t[i + 2..])
    ensures EndsWithMarker(t[i + 2..]) ==>
      t[..|t| - 2] == t[..i] + Marker + t[i + 2..][..|t| - i - 4]
  {
    var rest := t[i + 2..];
    assert t == t[..i] + Marker + rest;
    assert |rest| >= 2 ==> (t[|t| - 2] == rest[|rest| - 2] && t[|t| - 1] == rest[|rest| - 1]);
    if |rest| == 1 {
      assert t[|t| - 2] == 'n';
    }
  }

  /** One step of the renderer's loop: the first line, then the lines of what follows the marker. */
  lemma SplitLinesStep(t: string)
    requires |t| > 0
    ensures var i := IndexOf(t);
      SplitLines(t) == if i == -1 then [t] else [t[..i]] + SplitLines(t[i + 2..])
  {
  }

  /** Splitting a text with no marker in it yields that text as the only line. */
  lemma SplitLinesSingle(t: string)
    requires |t| > 0 && !HasMarker(t)
    ensures SplitLines(t) == [t]
  {
    IndexOfFirst(t);
  }
}
