/** The append-only log of finished episodes. */
module Stats {

  datatype Episode = Episode(index: int, reward: int, duration: int)

  /** Entry k carries the index k + 1: the indices are 1..n, consecutive. */
  predicate IndexedFromOne(episodes: seq<Episode>) {
    forall k :: 0 <= k < |episodes| ==> episodes[k].index == k + 1
  }

  /** The entry `add_episode` appends: the next index, the reward and the duration. */
  function Appended(episodes: seq<Episode>, reward: int, duration: int): (r: seq<Episode>)
    ensures |r| == |episodes| + 1 && r[..|episodes|] == episodes
    ensures r[|episodes|] == Episode(|episodes| + 1, reward, duration)
  {
    episodes + [Episode(|episodes| + 1, reward, duration)]
  }

  /** Appending keeps the indices consecutive from 1. */
  lemma AppendedIndexedFromOne(episodes: seq<Episode>, reward: int, duration: int)
    requires IndexedFromOne(episodes)
    ensures IndexedFromOne(Appended(episodes, reward, duration))
    ensures forall k :: 0 < k < |episodes| + 1 ==>
      Appended(episodes, reward, duration)[k].index == Appended(episodes, reward, duration)[k - 1].index + 1
  {
    var r := Appended(episodes, reward, duration);
    forall k | 0 <= k < |r| ensures r[k].index == k + 1 {
      if k < |episodes| {
        assert r[k] == episodes[k];
      }
    }
  }

  class GameStats {
    var episodes: seq<Episode>

    constructor ()
      ensures episodes == [] && IndexedFromOne(episodes)
    {
      episodes := [];
    }

    method AddEpisode(reward: int, duration: int)
      modifies this
      ensures episodes == Appended(old(episodes), reward, duration)
      ensures |episodes| == |old(episodes)| + 1
      ensures episodes[|old(episodes)|] == Episode(|old(episodes)| + 1, reward, duration)
      ensures old(IndexedFromOne(episodes)) ==> IndexedFromOne(episodes)
    {
      if IndexedFromOne(episodes) {
        AppendedIndexedFromOne(episodes, reward, duration);
      }
      episodes := episodes + [Episode(|episodes| + 1, reward, duration)];
    }
  }
}
