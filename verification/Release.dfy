/** The one-way maturity gate to broader circulation. */
module Release {
  import opened Folds
  import opened Events
  import opened NodeChain
  import opened ArosCoin
  import opened Reserve

  datatype Phase = Phase(active: bool, activatedAt: Option<int>,
                         reserveIndexAtActivation: Option<real>, velocityAtActivation: Option<real>)

  const INACTIVE := Phase(false, None, None, None)

  function Velocity(supply: real, processVolume24h: real): real
  {
    if supply <= 0.0 then 0.0 else processVolume24h / supply
  }

  /** Activity above a target means a supply in circulation whose turnover exceeds the target. */
  lemma VelocityExceeds(supply: real, processVolume24h: real, target: real)
    requires target >= 0.0
    ensures Velocity(supply, processVolume24h) > target <==> supply > 0.0 && processVolume24h > target * supply
  {
    if supply > 0.0 {
      var v := processVolume24h / supply;
      assert v * supply == processVolume24h;
      if v > target { assert (v - target) * supply > 0.0; } else { assert (target - v) * supply >= 0.0; }
    }
  }

  datatype Maturity = Maturity(mature: bool, reserveIndex: real, velocity: real)

  function Check(env: Env, c: Chain, coin: Coin, threshold: real, target: real, processVolume24h: real): Maturity
  {
    var reserveIndex := ReserveIndex(env, c);
    var velocity := Velocity(coin.TotalSupply(), processVolume24h);
    Maturity(reserveIndex > threshold && velocity > target, reserveIndex, velocity)
  }

  datatype ActivateResult = ActivateResult(activated: bool, active: bool, reserveIndex: real, velocity: real)

  class ReleaseService {
    const reserve: ReserveService
    const coin: ArosCoinService
    const chain: NodeChainService
    /** The single phase row; absent until first access. */
    var row: Option<Phase>

    constructor (reserve: ReserveService, coin: ArosCoinService, chain: NodeChainService)
      requires reserve.chain == chain
      ensures this.reserve == reserve && this.coin == coin && this.chain == chain
      ensures Wired() && View() == INACTIVE
    {
      this.reserve := reserve;
      this.coin := coin;
      this.chain := chain;
      row := None;
    }

    ghost predicate Wired() { reserve.chain == chain }

    ghost function View(): Phase
      reads this
    {
      if row.None? then INACTIVE else row.value
    }

    method ReadPhase() returns (phase: Phase)
      modifies this
      ensures phase == View() == old(View()) && row == Some(phase)
    {
      if row.None? {
        row := Some(INACTIVE);
      }
      phase := row.value;
    }

    method CheckMaturity(threshold: real, target: real, processVolume24h: real) returns (check: Maturity)
      requires Wired()
      modifies coin
      ensures coin.Ledger() == old(coin.Ledger())
      ensures check == Check(chain.env, chain.snapshots, coin.Ledger(), threshold, target, processVolume24h)
    {
      var reserveIndex := reserve.Index();
      var supply := coin.TotalSupply();
      var velocity := Velocity(supply, processVolume24h);
      var mature := reserveIndex > threshold && velocity > target;
      check := Maturity(mature, reserveIndex, velocity);
    }

    /** Activates when, and only when, the phase is inactive and both conditions hold. */
    method Activate(threshold: real, target: real, processVolume24h: real) returns (result: ActivateResult)
      requires Wired()
      modifies this, coin, chain, chain.clock
      ensures coin.Ledger() == old(coin.Ledger())
      ensures var check :=
                Check(chain.env, old(chain.snapshots), old(coin.Ledger()), threshold, target, processVolume24h);
              && result.activated == (!old(View()).active && check.mature)
              && result.active == (old(View()).active || check.mature)
              && result.reserveIndex == check.reserveIndex && result.velocity == check.velocity
              && if result.activated then
                   && View() ==
                        Phase(true, Some(old(chain.clock.t) + 1), Some(check.reserveIndex), Some(check.velocity))
                   && chain.View() == Log(chain.env, Tick(old(chain.View())), ReleaseActivated,
                        ReleaseRecord(check.reserveIndex, check.velocity, threshold, target))
                 else View() == old(View()) && chain.View() == old(chain.View())
    {
      var check := CheckMaturity(threshold, target, processVolume24h);
      var phase := ReadPhase();
      if phase.active {
        return ActivateResult(false, true, check.reserveIndex, check.velocity);
      }
      if !check.mature {
        return ActivateResult(false, false, check.reserveIndex, check.velocity);
      }
      var activatedAt := chain.clock.Now();
      var _ := chain.Append(ReleaseActivated, ReleaseRecord(check.reserveIndex, check.velocity, threshold, target));
      row := Some(Phase(true, Some(activatedAt), Some(check.reserveIndex), Some(check.velocity)));
      return ActivateResult(true, true, check.reserveIndex, check.velocity);
    }

    method IsActive() returns (active: bool)
      modifies this
      ensures View() == old(View()) && active == View().active
    {
      var phase := ReadPhase();
      active := phase.active;
    }
  }
}
