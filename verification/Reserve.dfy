/** Capitalization derived from NodeChain history. */
module Reserve {
  import opened Folds
  import opened Events
  import opened NodeChain

  /** What one record adds to the confirmed-work volume. */
  function VolumeOf(s: Snapshot): real
  {
    if s.eventType == EmissionMinted then
      (if s.payload.MintRecord? then s.payload.minted else 0.0)
    else if s.eventType == EpochFinalized then
      (if s.payload.EpochRecord? && s.payload.operationalMargin > 0.0 then s.payload.operationalMargin else 0.0)
    else 0.0
  }

  /** What one record adds to the audited AFC total. */
  function AfcOf(s: Snapshot): real
  {
    if s.eventType == AfcAccrual && s.payload.AfcRecord? then s.payload.amount else 0.0
  }

  function Volume(c: Chain): real { Sum(VolumeOf, c) }

  function AfcTotal(c: Chain): real { Sum(AfcOf, c) }

  function ReserveIndex(env: Env, c: Chain): real { env.log10(1.0 + Volume(c)) }

  class ReserveService {
    const chain: NodeChainService

    constructor (chain: NodeChainService)
      ensures this.chain == chain
    {
      this.chain := chain;
    }

    method TotalProcessVolume() returns (total: real)
      ensures total == Volume(chain.snapshots)
    {
      total := 0.0;
      var history := chain.snapshots;
      for i := 0 to |history|
        invariant total == Sum(VolumeOf, history[..i])
      {
        var snapshot := history[i];
        assert history[..i + 1] == history[..i] + [snapshot];
        SumSnoc(VolumeOf, history[..i], snapshot);
        if snapshot.eventType == EmissionMinted {
          var minted := if snapshot.payload.MintRecord? then snapshot.payload.minted else 0.0;
          total := total + minted;
        } else if snapshot.eventType == EpochFinalized {
          var margin := if snapshot.payload.EpochRecord? then snapshot.payload.operationalMargin else 0.0;
          if margin > 0.0 {
            total := total + margin;
          }
        }
      }
      assert history[..|history|] == history;
    }

    method TotalAfcReserve() returns (total: real)
      ensures total == AfcTotal(chain.snapshots)
    {
      total := 0.0;
      var history := chain.snapshots;
      for i := 0 to |history|
        invariant total == Sum(AfcOf, history[..i])
      {
        var snapshot := history[i];
        assert history[..i + 1] == history[..i] + [snapshot];
        SumSnoc(AfcOf, history[..i], snapshot);
        if snapshot.eventType == AfcAccrual {
          var amount := if snapshot.payload.AfcRecord? then snapshot.payload.amount else 0.0;
          total := total + amount;
        }
      }
      assert history[..|history|] == history;
    }

    method AddAfcAccrual(amount: real)
      modifies chain, chain.clock
      ensures chain.View() == Log(chain.env, old(chain.View()), AfcAccrual, AfcRecord(amount))
    {
      var _ := chain.Append(AfcAccrual, AfcRecord(amount));
    }

    method Index() returns (index: real)
      ensures index == ReserveIndex(chain.env, chain.snapshots)
    {
      var volume := TotalProcessVolume();
      index := chain.env.log10(1.0 + volume);
    }
  }
}
