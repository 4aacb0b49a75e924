/** `RewardList`: the reward list of one challenge and its optimistic
    `rescueReward`, in which `resgatada` is both the pending flag and the
    redeemed flag. */
module RewardList {
  import opened Common
  import opened Items
  import opened FetchUnit
  import opened SnackbarContext

  const RedeemSucceeded: string := "Recompensa resgatada com sucesso!"
  const RedeemFailed: string := "Não foi possível resgatar a recompensa."

  class RewardList {
    const challengeId: string
    var rewards: seq<Reward>
    const unit: FetchUnit<seq<Reward>>
    /** How many times the `loadData` prop has been called; the component
        receives it and never calls it. */
    var loadDataCalls: nat

    constructor (challengeId: string)
      ensures this.challengeId == challengeId && rewards == [] && loadDataCalls == 0
      ensures fresh(unit) && unit.state == Initial() && unit.sent == []
    {
      this.challengeId := challengeId;
      rewards := [];
      unit := new FetchUnit();
      loadDataCalls := 0;
    }

    /** `loadRewards()`: a GET of the challenge's rewards through the unit. */
    method LoadRewards(token: Option<string>, outcome: Outcome<seq<Reward>>)
      modifies unit
      ensures unit.state == Settled(Started(old(unit.state)), token, outcome)
      ensures unit.sent == old(unit.sent) + Sent(RewardsUrl(challengeId), GET, None, token)
    {
      var _ := unit.FetchData(RewardsUrl(challengeId), GET, None, token, outcome);
    }

    /** The effect on `fetchedRewards`: non-null data replaces the list. */
    method SyncFetched()
      modifies this
      ensures unit.state.data.Some? ==> rewards == unit.state.data.value
      ensures unit.state.data.None? ==> rewards == old(rewards)
      ensures loadDataCalls == old(loadDataCalls)
    {
      if unit.state.data.Some? {
        rewards := unit.state.data.value;
      }
    }

    /** `rescueReward(rewardId)`: mark, PUT, then keep the mark and reload on
        success, or report `errorRewards` (as captured before the call) and
        roll the mark back. */
    method RescueReward(rewardId: string, token: Option<string>, putOutcome: Outcome<seq<Reward>>,
                        reloadOutcome: Outcome<seq<Reward>>, snack: SnackbarProvider)
      returns (success: bool)
      modifies this, unit, snack
      ensures success <==> Returned(token, putOutcome).Some?
      ensures loadDataCalls == old(loadDataCalls)
      ensures success ==>
        && rewards == MarkRewardPending(old(rewards), rewardId)
        && snack.State() == Shown(old(snack.State()), RedeemSucceeded, Success)
        && unit.sent == old(unit.sent) + Sent(RedeemRewardUrl(rewardId), PUT, None, token)
                                       + Sent(RewardsUrl(challengeId), GET, None, token)
        && unit.state == Settled(Started(Settled(Started(old(unit.state)), token, putOutcome)), token, reloadOutcome)
      ensures !success ==>
        && rewards == RevertRewardPending(MarkRewardPending(old(rewards), rewardId), rewardId)
        && snack.State() == Shown(old(snack.State()), OrDefault(old(unit.state.error), RedeemFailed), Error)
        && unit.sent == old(unit.sent) + Sent(RedeemRewardUrl(rewardId), PUT, None, token)
        && unit.state == Settled(Started(old(unit.state)), token, putOutcome)
    {
      var errorRewards := unit.state.error;
      rewards := MarkRewardPending(rewards, rewardId);
      var result := unit.FetchData(RedeemRewardUrl(rewardId), PUT, None, token, putOutcome);
      success := result.Some?;
      if success {
        MarkRewardIdempotent(old(rewards), rewardId);
        rewards := MarkRewardPending(rewards, rewardId);
        snack.Show(RedeemSucceeded, Success);
        LoadRewards(token, reloadOutcome);
      } else {
        snack.Show(OrDefault(errorRewards, RedeemFailed), Error);
        rewards := RevertRewardPending(rewards, rewardId);
      }
    }
  }
}
