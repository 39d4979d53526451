/**
 * The inbound half of the stats broadcast: `playerStats` events carry an
 * opponent's latest numbers, and the receiver keeps only the most recent
 * snapshot from anyone but itself.
 */
module StatsChannel {
  import opened Optional

  /** The numbers carried in a stats message. */
  datatype StatsPayload = StatsPayload(wpm: int, accuracy: int, errors: int)

  /** A `playerStats` event. */
  datatype StatsEvent = StatsEvent(playerId: string, playerName: string, stats: StatsPayload)

  /** The opponent view: the sender's name spread together with its stats. */
  datatype OpponentStats = OpponentStats(playerName: string, wpm: int, accuracy: int, errors: int)

  function ViewOf(e: StatsEvent): OpponentStats
  {
    OpponentStats(e.playerName, e.stats.wpm, e.stats.accuracy, e.stats.errors)
  }

  /** One `playerStats` handler call: an event from oneself is ignored, any
      other overwrites the stored view. */
  function Receive(self: string, current: Option<OpponentStats>, e: StatsEvent): (r: Option<OpponentStats>)
    ensures e.playerId == self ==> r == current
    ensures e.playerId != self ==> r == Some(ViewOf(e))
  {
    if e.playerId != self then Some(ViewOf(e)) else current
  }

  /** A run of events handled in order. */
  function ReceiveAll(self: string, current: Option<OpponentStats>, es: seq<StatsEvent>): Option<OpponentStats>
    decreases |es|
  {
    if es == [] then current
    else ReceiveAll(self, Receive(self, current, es[0]), es[1..])
  }

  /** The index of the last event sent by someone else, or -1. */
  function LastForeign(self: string, es: seq<StatsEvent>): (k: int)
    ensures -1 <= k < |es|
    ensures k >= 0 ==> es[k].playerId != self
    ensures forall j :: k < j < |es| ==> es[j].playerId == self
  {
    if es == [] then -1
    else if es[|es| - 1].playerId != self then |es| - 1
    else LastForeign(self, es[..|es| - 1])
  }

  /** Latest wins: after a run of events the view is the one from the last
      foreign event, or what it was before if every event was one's own. */
  lemma {:induction false} LatestWins(self: string, current: Option<OpponentStats>, es: seq<StatsEvent>)
    ensures var k := LastForeign(self, es);
            ReceiveAll(self, current, es) == if k < 0 then current else Some(ViewOf(es[k]))
    decreases |es|
  {
    if es != [] {
      var next := Receive(self, current, es[0]);
      LatestWins(self, next, es[1..]);
      var k := LastForeign(self, es);
      var k' := LastForeign(self, es[1..]);
      if k' >= 0 {
        assert es[1..][k'] == es[k' + 1];
        assert k == k' + 1 by {
          assert es[k' + 1].playerId != self;
        }
      } else {
        assert forall j :: 1 <= j < |es| ==> es[j].playerId == es[1..][j - 1].playerId;
        assert k <= 0 by {
          assert forall j :: 0 < j < |es| ==> es[j].playerId == self;
        }
      }
    }
  }
}
