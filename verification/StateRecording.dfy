/** Captures process events into NodeChain and remembers which ones a process has. */
module StateRecording {
  import opened Folds
  import opened Events
  import opened NodeChain
  import Strings
  import JsObject

  /** The events a process must have before a verdict may be positive. */
  const REQUIRED: seq<EventType> := [Initiation, TaskAssignment, StageTransition, ExecutionComplete]

  type CapturedIndex = map<string, set<EventType>>

  function EventsOf(captured: CapturedIndex, processId: string): set<EventType>
  {
    if processId in captured then captured[processId] else {}
  }

  function Remembered(captured: CapturedIndex, processId: string, eventType: EventType): CapturedIndex
  {
    captured[processId := EventsOf(captured, processId) + {eventType}]
  }

  /** The required events `have` lacks, in the order they are required. */
  function Missing(have: set<EventType>, required: seq<EventType> := REQUIRED): (missing: seq<EventType>)
    ensures forall e :: e in missing <==> e in required && e !in have
  {
    if required == [] then []
    else
      var front := Missing(have, required[..|required| - 1]);
      var last := required[|required| - 1];
      if last in have then front else front + [last]
  }

  /** The canonical body: fixed outer keys, sorted data keys. */
  function CanonicalPayload(processId: string, data: JsObject.Obj, validatorId: Option<string>): Payload
    requires data.Valid()
  {
    Captured(processId, JsObject.SortKeys(data), validatorId)
  }

  /**
   * Two recordings of the same logical event hash alike at the same chain position, however the
   * two callers ordered the properties of the data.
   */
  lemma SameEventSameHash(env: Env, c: Chain, processId: string, a: JsObject.Obj, b: JsObject.Obj,
                          validatorId: Option<string>, eventType: EventType, timestamp: int)
    requires a.Valid() && b.Valid() && a.at == b.at
    ensures NextSnapshot(env, c, eventType, CanonicalPayload(processId, a, validatorId), timestamp)
         == NextSnapshot(env, c, eventType, CanonicalPayload(processId, b, validatorId), timestamp)
  {
    JsObject.SortKeysCanonical(a, b);
  }

  class StateRecordingService {
    const chain: NodeChainService
    var captured: CapturedIndex

    constructor (chain: NodeChainService)
      ensures this.chain == chain && captured == map[]
    {
      this.chain := chain;
      captured := map[];
    }

    method Capture(processId: string, eventType: EventType, data: JsObject.Obj,
                   validatorId: Option<string> := None)
      returns (snapshot: Snapshot)
      requires data.Valid()
      modifies this, chain, chain.clock
      ensures chain.View() == Log(chain.env, old(chain.View()), eventType,
                                  CanonicalPayload(processId, data, validatorId))
      ensures chain.snapshots == old(chain.snapshots) + [snapshot]
      ensures snapshot.eventType == eventType
      ensures snapshot.payload == Captured(processId, JsObject.SortKeys(data), validatorId)
      ensures captured == Remembered(old(captured), processId, eventType)
    {
      var payload := BuildPayload(processId, data, validatorId);
      snapshot := Submit(processId, eventType, payload);
      assert snapshot == chain.snapshots[|chain.snapshots| - 1];
    }

    /** The pass-through to NodeChain and the index entry. */
    method Submit(processId: string, eventType: EventType, payload: Payload) returns (snapshot: Snapshot)
      modifies this, chain, chain.clock
      ensures chain.View() == Log(chain.env, old(chain.View()), eventType, payload)
      ensures chain.snapshots == old(chain.snapshots) + [snapshot]
      ensures captured == Remembered(old(captured), processId, eventType)
    {
      snapshot := chain.Append(eventType, payload);
      if processId !in captured {
        captured := captured[processId := {}];
      }
      captured := captured[processId := captured[processId] + {eventType}];
    }

    method CapturedEvents(processId: string) returns (events: set<EventType>)
      ensures events == EventsOf(captured, processId)
    {
      events := if processId in captured then captured[processId] else {};
    }

    method CheckCompleteness(processId: string) returns (complete: bool, missing: seq<EventType>)
      ensures complete <==> forall e :: e in REQUIRED ==> e in EventsOf(captured, processId)
      ensures missing == Missing(EventsOf(captured, processId))
    {
      var have := CapturedEvents(processId);
      missing := [];
      for i := 0 to |REQUIRED|
        invariant missing == Missing(have, REQUIRED[..i])
      {
        assert REQUIRED[..i + 1][..i] == REQUIRED[..i];
        if REQUIRED[i] !in have {
          missing := missing + [REQUIRED[i]];
        }
      }
      assert REQUIRED[..|REQUIRED|] == REQUIRED;
      complete := |missing| == 0;
      if !complete { assert missing[0] in missing; }
    }

    method BuildPayload(processId: string, data: JsObject.Obj, validatorId: Option<string>)
      returns (payload: Payload)
      requires data.Valid()
      ensures payload == CanonicalPayload(processId, data, validatorId)
    {
      var sorted := SortKeys(data);
      payload := Captured(processId, sorted, validatorId);
    }

    /** A shallow copy of `value` with its own keys assigned in sorted order. */
    method SortKeys(value: JsObject.Obj) returns (sorted: JsObject.Obj)
      requires value.Valid()
      ensures sorted == JsObject.SortKeys(value)
    {
      sorted := JsObject.EMPTY;
      var keys := Strings.Sort(value.order);
      forall k ensures k in keys <==> k in value.at { JsObject.SortedKeys(value, k); }
      for i := 0 to |keys|
        invariant sorted == JsObject.Copied(value, keys[..i])
      {
        assert keys[..i + 1][..i] == keys[..i];
        assert keys[i] in keys;
        sorted := JsObject.Assign(sorted, keys[i], value.at[keys[i]]);
      }
      assert keys[..|keys|] == keys;
    }
  }
}
