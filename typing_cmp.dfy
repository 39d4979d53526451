/**
 * The multiplayer typing area (`TypingCmp`): a keystroke controller whose
 * state is the component's React state.  A handler reads the state of the
 * render the key arrived in and schedules updates; the model applies them
 * at once, so every contract relates the state after the handler (and the
 * effects of the next render) to the state before it.
 */
module TypingCmp {
  import opened Optional
  import opened RaceMetrics
  import opened TextFeedback
  import opened StatsChannel

  /** Socket messages this component emits. */
  datatype Outbound =
    | UpdateStats(roomId: string, playerId: string, stats: StatsPayload)
    | RaceCompleted(roomId: string, playerId: string, final: TypingStats)
    | ResetRoom(roomId: string, playerId: string)
    | PlayerReset(roomId: string, playerId: string)

  /** The stats record of a fresh session. */
  const DefaultStats := TypingStats(0, 100, 0, 0)

  /** The opponent view after a reset: same name, numbers zeroed. */
  function ZeroedOpponent(o: Option<OpponentStats>): (r: Option<OpponentStats>)
    ensures r.None? <==> o.None?
    ensures r.Some? ==> r.value == OpponentStats(o.value.playerName, 0, 100, 0)
  {
    match o
    case None => None
    case Some(v) => Some(v.(wpm := 0, accuracy := 100, errors := 0))
  }

  /** The stats lag one key behind the buffer: with "a" typed and a wrong
      "x" appended, the recompute still sees "a" and reports no error,
      although the new buffer holds one. */
  lemma StatsLagOneKey()
    ensures CalculateStats("ab", "a", 1, Some(1000), 61000) == Recompute(0, TypingStats(0, 100, 0, 1))
    ensures ErrorCount("ab", "ax") == 1
  {
    assert ErrorCount("ab", "a") == 0 by { PrefixHasNoErrors("ab", "a"); }
    assert "ax"[..1] == "a";
  }

  class RaceTyping {
    const roomId: string
    const playerId: string
    const sampleText: string

    var userInput: string
    var startTime: Option<int>
    var currentPosition: int
    var currentErrors: nat
    var isCompleted: bool
    var stats: TypingStats
    var opponentStats: Option<OpponentStats>

    /** Kept by every handler: the position is the buffer's length, and the
        buffer never grows past the passage. */
    ghost predicate Valid()
      reads this
    {
      currentPosition == |userInput| && |userInput| <= |sampleText|
    }

    /** The numbers the `updateStats` effect watches and sends. */
    function Shown(): StatsPayload
      reads this
    {
      StatsPayload(stats.wpm, stats.accuracy, currentErrors)
    }

    /** What the two effects emit after a render: `raceCompleted` when one
        of its dependencies changed and the buffer is as long as the passage,
        then `updateStats` when the watched numbers changed and the start
        time is set. */
    function Effects(depsChanged: bool, before: StatsPayload): seq<Outbound>
      reads this
    {
      (if depsChanged && |userInput| == |sampleText| then [RaceCompleted(roomId, playerId, stats)] else [])
      + (if Shown() != before && !Unstamped(startTime) then [UpdateStats(roomId, playerId, Shown())] else [])
    }

    constructor (roomId: string, playerId: string, sampleText: string)
      ensures Valid()
      ensures this.roomId == roomId && this.playerId == playerId && this.sampleText == sampleText
      ensures userInput == "" && startTime == None && currentPosition == 0 && currentErrors == 0
      ensures !isCompleted && stats == DefaultStats && opponentStats == None
    {
      this.roomId, this.playerId, this.sampleText := roomId, playerId, sampleText;
      userInput, startTime, currentPosition, currentErrors := "", None, 0, 0;
      isCompleted, stats, opponentStats := false, DefaultStats, None;
    }

    /** The completion and broadcast effects of the render after a change. */
    method AfterRender(depsChanged: bool, before: StatsPayload) returns (out: seq<Outbound>)
      modifies this`isCompleted
      ensures isCompleted == (old(isCompleted) || (depsChanged && |userInput| == |sampleText|))
      ensures out == Effects(depsChanged, before)
    {
      if depsChanged && |userInput| == |sampleText| {
        isCompleted := true;
      }
      out := Effects(depsChanged, before);
    }

    /** `handleKeyDown`, attached only while the countdown `counter` is not
        positive.  `cue` is the sound played, absent when the key is ignored. */
    method KeyDown(key: string, counter: int, now: int) returns (cue: Option<Cue>, out: seq<Outbound>)
      requires Valid()
      modifies this
      ensures Valid()
      ensures cue.None? <==>
                || counter > 0
                || (key == "Backspace" && old(userInput) == [])
                || (key != "Backspace" && !(|key| == 1 && |old(userInput)| < |sampleText|))
      ensures cue.None? ==> unchanged(this) && out == []
      ensures cue.Some? && key == "Backspace" ==>
                userInput == old(userInput)[..|old(userInput)| - 1] && cue == Some(CorrectCue)
      ensures cue.Some? && key != "Backspace" ==>
                userInput == old(userInput) + key && cue == Some(KeyCue(sampleText, old(userInput), key[0]))
      ensures var step := CalculateStats(sampleText, old(userInput), old(currentPosition), old(startTime), now);
              cue.Some? ==>
                if step.StampStart? then
                  startTime == Some(now) && stats == old(stats) && currentErrors == old(currentErrors)
                else
                  startTime == old(startTime) && stats == step.stats && currentErrors == step.errors
      ensures opponentStats == old(opponentStats)
      ensures isCompleted == (old(isCompleted) || (cue.Some? && |userInput| == |sampleText|))
      ensures cue.Some? ==> out == Effects(true, old(Shown()))
    {
      cue, out := None, [];
      if counter > 0 {
        return;
      }
      var typed, position, started, before := userInput, currentPosition, startTime, Shown();
      if key == "Backspace" {
        if |typed| > 0 {
          userInput := typed[..|typed| - 1];
          currentPosition := currentPosition - 1;
          cue := Some(CorrectCue);
        }
      } else if |key| == 1 && |typed| < |sampleText| {
        userInput := typed + key;
        currentPosition := |userInput|;
        cue := Some(KeyCue(sampleText, typed, key[0]));
      }
      if cue.Some? {
        match CalculateStats(sampleText, typed, position, started, now) {
          case StampStart(t) =>
            startTime := Some(t);
          case Recompute(e, s) =>
            currentErrors, stats := e, s;
        }
        out := AfterRender(true, before);
      }
    }

    /** `handleReset`: back to a fresh session, the opponent's numbers zeroed,
        and the reset announced to the room. */
    method Reset() returns (out: seq<Outbound>)
      requires Valid()
      modifies this
      ensures Valid()
      ensures userInput == "" && startTime == None && currentPosition == 0 && currentErrors == 0
      ensures stats == DefaultStats && opponentStats == ZeroedOpponent(old(opponentStats))
      ensures isCompleted == (|sampleText| == 0)
      ensures out == [ResetRoom(roomId, playerId), PlayerReset(roomId, playerId)] + Effects(true, old(Shown()))
    {
      var before := Shown();
      userInput, startTime, currentPosition, currentErrors := "", None, 0, 0;
      isCompleted, stats := false, DefaultStats;
      opponentStats := ZeroedOpponent(opponentStats);
      var effects := AfterRender(true, before);
      out := [ResetRoom(roomId, playerId), PlayerReset(roomId, playerId)] + effects;
    }

    /** The `playerStats` listener: latest foreign snapshot wins.  A new
        snapshot is a changed dependency of the completion effect. */
    method ReceiveStats(e: StatsEvent) returns (out: seq<Outbound>)
      requires Valid()
      modifies this
      ensures Valid()
      ensures opponentStats == Receive(playerId, old(opponentStats), e)
      ensures userInput == old(userInput) && startTime == old(startTime) && currentPosition == old(currentPosition)
      ensures stats == old(stats) && currentErrors == old(currentErrors)
      ensures isCompleted == (old(isCompleted) || (e.playerId != playerId && |userInput| == |sampleText|))
      ensures out == if e.playerId != playerId && |userInput| == |sampleText|
                     then [RaceCompleted(roomId, playerId, stats)] else []
    {
      var before := Shown();
      opponentStats := Receive(playerId, opponentStats, e);
      out := AfterRender(e.playerId != playerId, before);
    }

    /** The dialog's Close button. */
    method CloseDialog()
      modifies this`isCompleted
      ensures !isCompleted
    {
      isCompleted := false;
    }
  }
}
