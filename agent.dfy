/**
 * The bookkeeping of the REINFORCE agent: the direction <-> action-index
 * encoding, the per-episode transcript (log-probabilities and rewards) and the
 * discounted return-to-go. Returns are computed over `real`, an exact
 * idealisation of the source's floating point.
 */
module Agent {
  import opened Wrappers
  import opened Directions

  /** The fixed action encoding Up, Right, Down, Left -> 0, 1, 2, 3. */
  function Encode(d: Direction): (i: int)
    ensures 0 <= i < 4
  {
    match d
    case Up => 0
    case Right => 1
    case Down => 2
    case Left => 3
  }

  /** The reverse dictionary: defined exactly on 0..3 (other keys miss). */
  function Decode(i: int): (r: Option<Direction>)
    ensures r.Some? <==> 0 <= i < 4
    ensures r.Some? ==> Encode(r.value) == i
  {
    if i == 0 then Some(Up)
    else if i == 1 then Some(Right)
    else if i == 2 then Some(Down)
    else if i == 3 then Some(Left)
    else None
  }

  lemma DecodeEncode(d: Direction)
    ensures Decode(Encode(d)) == Some(d)
  {
  }

  /** The encoding is a bijection between the four directions and {0, 1, 2, 3}. */
  lemma EncodingBijective(d1: Direction, d2: Direction, i: int)
    ensures Encode(d1) == Encode(d2) ==> d1 == d2
    ensures 0 <= i < 4 ==> exists d :: Encode(d) == i
  {
    if 0 <= i < 4 {
      assert Encode(Decode(i).value) == i;
    }
  }

  function Pow(x: real, k: nat): real {
    if k == 0 then 1.0 else x * Pow(x, k - 1)
  }

  /** The sum of a sequence, as Python's `sum` (exact over reals, so order does not matter). */
  function Sum(s: seq<real>): real {
    if s == [] then 0.0 else s[0] + Sum(s[1..])
  }

  /** The terms `rewards[k] * discount ** (k - t)` for k in range(t, len(rewards)). */
  function DiscountedTerms(rewards: seq<int>, t: nat, discount: real): (s: seq<real>)
    requires t <= |rewards|
    ensures |s| == |rewards| - t
  {
    seq(|rewards| - t, j requires 0 <= j < |rewards| - t => rewards[t + j] as real * Pow(discount, j))
  }

  /** The return-to-go vector: one discounted sum per time step. */
  function ReturnsToGo(rewards: seq<int>, discount: real): (g: seq<real>)
    ensures |g| == |rewards|
    ensures rewards == [] ==> g == []
  {
    seq(|rewards|, t requires 0 <= t < |rewards| => Sum(DiscountedTerms(rewards, t, discount)))
  }

  /** Every element multiplied by `c`. */
  function Scale(c: real, s: seq<real>): (r: seq<real>)
    ensures |r| == |s| && forall i :: 0 <= i < |s| ==> r[i] == c * s[i]
  {
    seq(|s|, i requires 0 <= i < |s| => c * s[i])
  }

  lemma {:induction false} SumScaled(c: real, s: seq<real>)
    ensures Sum(Scale(c, s)) == c * Sum(s)
  {
    if s != [] {
      SumScaled(c, s[1..]);
      var tail := Scale(c, s)[1..];
      forall i | 0 <= i < |s| - 1 ensures tail[i] == Scale(c, s[1..])[i] {
        assert tail[i] == Scale(c, s)[i + 1];
      }
      assert tail == Scale(c, s[1..]);
    }
  }

  /**
   * The returns satisfy the backward recurrence
   * G[T-1] = rewards[T-1] and G[t] = rewards[t] + discount * G[t+1].
   */
  lemma ReturnsRecurrence(rewards: seq<int>, discount: real, t: nat)
    requires t < |rewards|
    ensures t == |rewards| - 1 ==> ReturnsToGo(rewards, discount)[t] == rewards[t] as real
    ensures t < |rewards| - 1 ==>
      ReturnsToGo(rewards, discount)[t] == rewards[t] as real + discount * ReturnsToGo(rewards, discount)[t + 1]
  {
    var s := DiscountedTerms(rewards, t, discount);
    var next := DiscountedTerms(rewards, t + 1, discount);
    assert s[0] == rewards[t] as real;
    var scaled := Scale(discount, next);
    forall i | 0 <= i < |next| ensures s[1..][i] == scaled[i] {
      assert s[1..][i] == s[i + 1] == rewards[t + 1 + i] as real * (discount * Pow(discount, i));
      assert next[i] == rewards[t + 1 + i] as real * Pow(discount, i);
    }
    assert s[1..] == scaled;
    SumScaled(discount, next);
  }

  /** All-zero rewards give all-zero returns. */
  lemma {:induction false} ZeroRewardsZeroReturns(rewards: seq<int>, discount: real, t: nat)
    requires forall k :: 0 <= k < |rewards| ==> rewards[k] == 0
    requires t < |rewards|
    ensures ReturnsToGo(rewards, discount)[t] == 0.0
    decreases |rewards| - t
  {
    ReturnsRecurrence(rewards, discount, t);
    if t < |rewards| - 1 {
      ZeroRewardsZeroReturns(rewards, discount, t + 1);
    }
  }

  /** The worked example: rewards [1, 1, 1] at discount 0.9 give [2.71, 1.9, 1]. */
  lemma ReturnsExample()
    ensures ReturnsToGo([1, 1, 1], DefaultDiscount) == [2.71, 1.9, 1.0]
  {
    var rewards := [1, 1, 1];
    ReturnsRecurrence(rewards, DefaultDiscount, 2);
    ReturnsRecurrence(rewards, DefaultDiscount, 1);
    ReturnsRecurrence(rewards, DefaultDiscount, 0);
  }

  datatype AgentError =
    | EmptyLoss  // torch.cat of an empty loss list: no reward or no log-probability recorded

  /** The discount the agent is built with by default. */
  const DefaultDiscount: real := 0.9

  /**
   * The agent's per-episode transcript. `LogProb` stands for the log-probability
   * tensors the policy network produces; the model never looks inside them.
   */
  class ReinforceAgent<LogProb> {
    var discount: real
    var actionsLogProbs: seq<LogProb>
    var rewards: seq<int>

    /** One log-probability recorded per reward. */
    predicate Balanced()
      reads this
    {
      |actionsLogProbs| == |rewards|
    }

    constructor (discount: real := DefaultDiscount)
      ensures this.discount == discount && actionsLogProbs == [] && rewards == []
      ensures Balanced()
    {
      this.discount := discount;
      actionsLogProbs := [];
      rewards := [];
    }

    /**
     * Records the log-probability of the sampled action and returns its
     * direction. `sampled` is the categorical sample, an index in 0..3, and
     * `logProb` its log-probability; the network and the sampling are not modelled.
     */
    method SelectPolicyAction(sampled: int, logProb: LogProb) returns (d: Direction)
      requires 0 <= sampled < 4
      modifies this
      ensures Decode(sampled) == Some(d) && Encode(d) == sampled
      ensures actionsLogProbs == old(actionsLogProbs) + [logProb]
      ensures rewards == old(rewards) && discount == old(discount)
    {
      actionsLogProbs := actionsLogProbs + [logProb];
      d := Decode(sampled).value;
    }

    /** Appends one reward; after a matching SelectPolicyAction the transcript is balanced again. */
    method AddReward(reward: int)
      modifies this
      ensures rewards == old(rewards) + [reward]
      ensures actionsLogProbs == old(actionsLogProbs) && discount == old(discount)
      ensures |old(actionsLogProbs)| == |old(rewards)| + 1 ==> Balanced()
    {
      rewards := rewards + [reward];
    }

    /**
     * Computes the return-to-go of the episode and clears the transcript. The
     * normalisation, loss and optimiser step are not modelled; the returns are
     * handed back instead. With no loss term to concatenate (no reward or no
     * log-probability) the source raises before clearing: nothing changes.
     */
    method TrainStep() returns (r: Result<seq<real>, AgentError>)
      modifies this
      ensures r.Failure? <==> old(rewards) == [] || old(actionsLogProbs) == []
      ensures r.Failure? ==> rewards == old(rewards) && actionsLogProbs == old(actionsLogProbs)
      ensures r.Success? ==> r.value == ReturnsToGo(old(rewards), discount)
      ensures r.Success? ==> rewards == [] && actionsLogProbs == []
      ensures discount == old(discount)
    {
      var expReturns := ReturnsToGo(rewards, discount);
      if |rewards| == 0 || |actionsLogProbs| == 0 {
        return Failure(EmptyLoss);
      }
      Clear();
      r := Success(expReturns);
    }

    method Clear()
      modifies this
      ensures rewards == [] && actionsLogProbs == [] && discount == old(discount)
      ensures Balanced()
    {
      rewards := [];
      actionsLogProbs := [];
    }
  }
}
