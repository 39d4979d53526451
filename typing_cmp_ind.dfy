/**
 * The practice typing area (`TypingCmpInd`): the same keystroke controller
 * without an opponent, with a word-wise delete on Ctrl+Backspace, a reset
 * driven by the `tozero` property, and the finished run saved unless the
 * component is in practice mode.
 */
module TypingCmpInd {
  import opened Optional
  import opened RaceMetrics
  import opened TextFeedback

  /** The characters `String.prototype.trimEnd` removes: ECMAScript white
      space and line terminators. */
  predicate IsWhitespace(c: char)
  {
    var n := c as int;
    || (0x09 <= n <= 0x0D) || n == 0x20 || n == 0xA0 || n == 0x1680
    || (0x2000 <= n <= 0x200A) || n == 0x2028 || n == 0x2029 || n == 0x202F || n == 0x205F
    || n == 0x3000 || n == 0xFEFF
  }

  /** `trimEnd`: the longest prefix that does not end in white space. */
  function TrimEnd(s: string): (r: string)
    ensures r <= s
    ensures r == [] || !IsWhitespace(r[|r| - 1])
    ensures forall i :: |r| <= i < |s| ==> IsWhitespace(s[i])
  {
    if s != [] && IsWhitespace(s[|s| - 1]) then TrimEnd(s[..|s| - 1]) else s
  }

  /** `lastIndexOf(c)`: the last index holding `c`, or -1. */
  function LastIndexOf(s: string, c: char): (k: int)
    ensures -1 <= k < |s|
    ensures k >= 0 ==> s[k] == c
    ensures forall j :: k < j < |s| ==> s[j] != c
  {
    if s == [] then -1
    else if s[|s| - 1] == c then |s| - 1
    else LastIndexOf(s[..|s| - 1], c)
  }

  /** The buffer after Ctrl+Backspace: drop trailing white space and the last
      word, keeping the space before it, or clear the buffer when no space is
      left. */
  function WordDelete(buffer: string): (r: string)
    ensures r <= buffer
    ensures r == [] || r[|r| - 1] == ' '
    ensures buffer != [] ==> |r| < |buffer|
    ensures ' ' !in TrimEnd(buffer) ==> r == []
    ensures |r| <= |TrimEnd(buffer)|
    ensures forall j :: |r| <= j < |TrimEnd(buffer)| ==> buffer[j] != ' '
  {
    var t := TrimEnd(buffer);
    var k := LastIndexOf(t, ' ');
    if k != -1 then buffer[..k + 1] else ""
  }

  /** The cut is determined by those properties: any prefix of the trimmed
      buffer that is empty or ends in a space, and after which the trimmed
      buffer holds no space, is the result of Ctrl+Backspace. */
  lemma WordDeleteUnique(buffer: string, q: string)
    requires q <= TrimEnd(buffer)
    requires q == [] || q[|q| - 1] == ' '
    requires forall j :: |q| <= j < |TrimEnd(buffer)| ==> buffer[j] != ' '
    ensures q == WordDelete(buffer)
  {
    var r := WordDelete(buffer);
    var t := TrimEnd(buffer);
    assert |q| <= |r| by {
      if q != [] {
        assert buffer[|q| - 1] == q[|q| - 1] == ' ';
      }
    }
    assert |r| <= |q| by {
      if r != [] {
        assert buffer[|r| - 1] == ' ';
      }
    }
    assert q == t[..|q|] && r == buffer[..|r|];
  }

  /** The `saveStats` request: the finished run's numbers. */
  datatype SaveRequest = SaveRequest(playerId: string, userId: string, wpm: int, errors: nat, accuracy: int)

  /** The stats record this component starts and resets with. */
  const ResetStats := TypingStats(0, 0, 0, 0)

  class PracticeTyping {
    const playerId: string
    const userId: string
    const sampleText: string
    const practice: bool

    var userInput: string
    var startTime: Option<int>
    var currentPosition: int
    var currentErrors: nat
    var isCompleted: bool
    var stats: TypingStats
    /** The `tozero` property as the last render saw it. */
    var tozero: bool

    ghost predicate Valid()
      reads this
    {
      currentPosition == |userInput| && |userInput| <= |sampleText|
    }

    /** Kept by the mount-time run of the `tozero` effect too: a reset of the
        initial state changes nothing. */
    constructor (playerId: string, userId: string, sampleText: string, practice: bool, tozero: bool)
      ensures Valid()
      ensures this.playerId == playerId && this.userId == userId
      ensures this.sampleText == sampleText && this.practice == practice && this.tozero == tozero
      ensures userInput == "" && startTime == None && currentPosition == 0 && currentErrors == 0
      ensures !isCompleted && stats == ResetStats
    {
      this.playerId, this.userId, this.sampleText, this.practice := playerId, userId, sampleText, practice;
      this.tozero := tozero;
      userInput, startTime, currentPosition, currentErrors := "", None, 0, 0;
      isCompleted, stats := false, ResetStats;
    }

    /** The save request the completion effect sends, unless practising. */
    function Save(): Option<SaveRequest>
      reads this
    {
      if practice then None else Some(SaveRequest(playerId, userId, stats.wpm, stats.errors, stats.accuracy))
    }

    /** The completion effect, whose only changing dependency is the buffer. */
    method AfterRender(inputChanged: bool) returns (save: Option<SaveRequest>)
      modifies this`isCompleted
      ensures isCompleted == (old(isCompleted) || (inputChanged && |userInput| == |sampleText|))
      ensures save == if inputChanged && |userInput| == |sampleText| then Save() else None
    {
      save := None;
      if inputChanged && |userInput| == |sampleText| {
        isCompleted := true;
        save := Save();
      }
    }

    /** `handleKeyDown`.  Any Backspace is handled, even on an empty buffer:
        it recomputes the stats and plays the correct-key sound. */
    method KeyDown(key: string, ctrl: bool, counter: int, now: int)
      returns (cue: Option<Cue>, save: Option<SaveRequest>)
      requires Valid()
      modifies this
      ensures Valid()
      ensures cue.None? <==>
                || counter > 0
                || (key != "Backspace" && !(|key| == 1 && |old(userInput)| < |sampleText|))
      ensures cue.None? ==> unchanged(this) && save == None
      ensures cue.Some? && key == "Backspace" ==>
                && cue == Some(CorrectCue)
                && userInput == if ctrl then WordDelete(old(userInput))
                                else if old(userInput) == [] then old(userInput)
                                else old(userInput)[..|old(userInput)| - 1]
      ensures cue.Some? && key != "Backspace" ==>
                userInput == old(userInput) + key && cue == Some(KeyCue(sampleText, old(userInput), key[0]))
      ensures var step := CalculateStats(sampleText, old(userInput), old(currentPosition), old(startTime), now);
              cue.Some? ==>
                if step.StampStart? then
                  startTime == Some(now) && stats == old(stats) && currentErrors == old(currentErrors)
                else
                  startTime == old(startTime) && stats == step.stats && currentErrors == step.errors
      ensures tozero == old(tozero)
      ensures var done := userInput != old(userInput) && |userInput| == |sampleText|;
              isCompleted == (old(isCompleted) || done) && save == (if done then Save() else None)
    {
      cue, save := None, None;
      if counter > 0 {
        return;
      }
      var typed, position, started := userInput, currentPosition, startTime;
      if key == "Backspace" {
        if ctrl {
          userInput := WordDelete(typed);
          currentPosition := |userInput|;
        } else if |typed| > 0 {
          userInput := typed[..|typed| - 1];
          currentPosition := currentPosition - 1;
        }
        cue := Some(CorrectCue);
      } else if |key| == 1 && |typed| < |sampleText| {
        userInput := typed + key;
        currentPosition := |userInput|;
        cue := Some(KeyCue(sampleText, typed, key[0]));
      }
      if cue.Some? {
        match CalculateStats(sampleText, typed, position, started, now) {
          case StampStart(t) =>
            startTime := Some(t);
          case Recompute(e, s) =>
            currentErrors, stats := e, s;
        }
        save := AfterRender(userInput != typed);
      }
    }

    /** `reset`: an empty buffer, no start time and zeroed stats.  It leaves
        the completion flag alone and never completes the run itself. */
    method Reset() returns (save: Option<SaveRequest>)
      requires Valid()
      modifies this
      ensures Valid()
      ensures userInput == "" && startTime == None && currentPosition == 0 && currentErrors == 0
      ensures stats == ResetStats && isCompleted == old(isCompleted) && tozero == old(tozero)
      ensures save == None
    {
      var typed := userInput;
      userInput, startTime, currentPosition, currentErrors := "", None, 0, 0;
      stats := ResetStats;
      save := AfterRender(userInput != typed);
    }

    /** The `tozero` effect: a reset each time the property turns true. */
    method SetToZero(value: bool) returns (save: Option<SaveRequest>)
      requires Valid()
      modifies this
      ensures Valid()
      ensures tozero == value && save == None && isCompleted == old(isCompleted)
      ensures value && !old(tozero) ==>
                userInput == "" && startTime == None && currentPosition == 0 && currentErrors == 0
                && stats == ResetStats
      ensures !(value && !old(tozero)) ==>
                userInput == old(userInput) && startTime == old(startTime) && stats == old(stats)
                && currentPosition == old(currentPosition) && currentErrors == old(currentErrors)
    {
      save := None;
      if value != tozero {
        tozero := value;
        if value {
          save := Reset();
        }
      }
    }

    /** The dialog's Close button: hide the dialog and reset. */
    method CloseDialog() returns (save: Option<SaveRequest>)
      requires Valid()
      modifies this
      ensures Valid() && !isCompleted && save == None
      ensures userInput == "" && startTime == None && currentPosition == 0 && currentErrors == 0
      ensures stats == ResetStats && tozero == old(tozero)
    {
      isCompleted := false;
      save := Reset();
    }
  }
}
