/** The records the services exchange and persist, and the outside functions they call. */
module Events {
  import opened Folds
  import JsObject

  /** The event-type strings the services write, one constructor each; `Other` is any further string. */
  datatype EventType =
    | Initiation | TaskAssignment | StageTransition | ExecutionComplete
    | PotVerdict | EmissionRecorded | FinalStatus
    | PotVerified | EmissionMinted | EmissionBurned
    | NodeRegistered | NodePaymentReceived
    | AfcAccrual | EpochFinalized | ReleaseActivated
    | Other(name: string)

  /** Why a verdict is negative. */
  datatype Reason = MissingEvent(event: EventType) | StatesNotRecorded

  datatype Basis = WorkWeight | AfcReserve

  datatype DistributionEntry = DistributionEntry(nodeId: string, amount: real, reason: Basis)

  /** The body of a NodeChain record. */
  datatype Payload =
    | Captured(processId: string, data: JsObject.Obj, validatorId: Option<string>)
    | VerdictRecord(processId: string, verified: bool, reasons: seq<Reason>)
    | MintRecord(processId: string, minted: real)
    | BurnRecord(processId: string, burned: real)
    | NodeRecord(nodeId: string, kind: string, uptime: real, reputation: real, weight: real)
    | PaymentRecord(nodeId: string, amount: real, weight: real)
    | AfcRecord(amount: real)
    | EpochRecord(epochNumber: int, totalFees: real, operationalMargin: real, paid: real,
                  reconciled: bool, distributionLog: seq<DistributionEntry>)
    | ReleaseRecord(reserveIndex: real, velocity: real, threshold: real, target: real)
  {
    /** The `processId` field of the body, when it has one. */
    function Process(): Option<string>
    {
      if Captured? || VerdictRecord? || MintRecord? || BurnRecord? then Some(processId) else None
    }
  }

  /** What the Eye puts on record. */
  datatype Note =
    | Initiated(processId: string, amount: real)
    | Rejected(processId: string)
    | Assigned(nodes: nat)
    | Judged(processId: string, verified: bool)
    | Minted(processId: string, amount: real)
    | Burned(processId: string, amount: real)
    | Finished(processId: string)
    | Distributed(epochNumber: int, paid: real, margin: real, reconciled: bool)
    | SupplyDrift(totalSupply: real, retained: real)
    | ChainBreak(sequenceId: int)
  {
    function EventName(): string
    {
      match this
      case Initiated(_, _) => "initiation"
      case Rejected(_) => "anomaly_detected"
      case Assigned(_) => "task_assignment"
      case Judged(_, _) => "pot_verdict"
      case Minted(_, _) => "mint"
      case Burned(_, _) => "burn"
      case Finished(_) => "final_status"
      case Distributed(_, _, _, _) => "commission_distribution"
      case SupplyDrift(_, _) => "anomaly_detected"
      case ChainBreak(_) => "anomaly_detected"
    }

    function Layer(): string
    {
      match this
      case Initiated(_, _) => "processing"
      case Rejected(_) => "processing"
      case Assigned(_) => "processing"
      case Judged(_, _) => "processing"
      case Minted(_, _) => "token_management"
      case Burned(_, _) => "token_management"
      case Finished(_) => "ledger_anchoring"
      case Distributed(_, _, _, _) => "token_management"
      case SupplyDrift(_, _) => "token_management"
      case ChainBreak(_) => "ledger_anchoring"
    }
  }

  /**
   * SHA-256, JSON.stringify, String(n) on integers, the text of a note, and Math.log10. Nothing is
   * assumed of them here; the theorems that need a property of one say which.
   */
  datatype Env = Env(
    sha256: string -> string,
    stringify: Payload -> string,
    number: int -> string,
    describe: Note -> string,
    log10: real -> real)
}
