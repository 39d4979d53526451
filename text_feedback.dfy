/**
 * What the typing components show and play while the player types: the
 * sound cue chosen for an appended key and the colour class of every
 * character of the passage.  Audio playback and styling are presentation;
 * only the classification is modelled.
 */
module TextFeedback {
  import opened RaceMetrics

  /** The three key sounds. */
  datatype Cue = CorrectCue | ErrorCue | SpaceCue

  /** The cue for `key` appended to `typed`: a space always sounds as a
      space; any other key sounds correct when it is the expected character. */
  function KeyCue(sample: string, typed: string, key: char): (r: Cue)
    ensures r == SpaceCue <==> key == ' '
    ensures r == CorrectCue <==> key != ' ' && |typed| < |sample| && key == sample[|typed|]
  {
    if key == ' ' then SpaceCue
    else if |typed| < |sample| && key == sample[|typed|] then CorrectCue
    else ErrorCue
  }

  /** For any key but the space, the cue says whether appending the key adds
      an error. */
  lemma CueMatchesNewError(sample: string, typed: string, key: char)
    requires key != ' '
    ensures KeyCue(sample, typed, key) == ErrorCue <==>
            ErrorCount(sample, typed + [key]) == ErrorCount(sample, typed) + 1
  {
    AppendErrorCount(sample, typed, key);
  }

  /** Colour classes of a passage character: not yet reached, typed right,
      typed wrong (red), or under the caret. */
  datatype CharClass = Pending | Matched | Mismatched | Caret

  /** The class of passage character `i` in `renderText`. */
  function ClassAt(sample: string, typed: string, i: nat): (r: CharClass)
    requires i < |sample|
    ensures r == Mismatched <==> i < |typed| && typed[i] != sample[i]
    ensures r == Caret <==> i == |typed|
    ensures r == Matched <==> i < |typed| && typed[i] == sample[i]
    ensures r == Pending <==> i > |typed|
  {
    if i < |typed| then (if typed[i] == sample[i] then Matched else Mismatched)
    else if i == |typed| then Caret
    else Pending
  }

  /** The classes of the whole passage, one per sample character. */
  function RenderClasses(sample: string, typed: string): (r: seq<CharClass>)
    ensures |r| == |sample|
    ensures forall i :: 0 <= i < |sample| ==> r[i] == ClassAt(sample, typed, i)
  {
    seq(|sample|, i requires 0 <= i < |sample| => ClassAt(sample, typed, i))
  }

  /** The number of characters drawn in red. */
  function RedCount(cs: seq<CharClass>): nat
  {
    if cs == [] then 0
    else RedCount(cs[..|cs| - 1]) + (if cs[|cs| - 1] == Mismatched then 1 else 0)
  }

  ghost function RedIndices(cs: seq<CharClass>): set<nat>
  {
    set i: nat | i < |cs| && cs[i] == Mismatched
  }

  lemma {:induction false} RedCountIsRedIndices(cs: seq<CharClass>)
    ensures RedCount(cs) == |RedIndices(cs)|
  {
    if cs == [] {
      assert RedIndices(cs) == {};
    } else {
      var n := |cs| - 1;
      RedCountIsRedIndices(cs[..n]);
      var s := RedIndices(cs[..n]);
      if cs[n] == Mismatched {
        assert RedIndices(cs) == s + {n};
      } else {
        assert RedIndices(cs) == s;
      }
    }
  }

  /** While the buffer is no longer than the passage, the characters drawn in
      red are exactly the ones the error count counts. */
  lemma RedCountIsErrorCount(sample: string, typed: string)
    requires |typed| <= |sample|
    ensures RedCount(RenderClasses(sample, typed)) == ErrorCount(sample, typed)
  {
    var cs := RenderClasses(sample, typed);
    RedCountIsRedIndices(cs);
    ErrorCountIsMismatchCount(sample, typed);
    assert RedIndices(cs) == MismatchIndices(sample, typed);
  }
}
