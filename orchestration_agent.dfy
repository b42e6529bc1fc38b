/**
 * The orchestration agent as the object it is in the source (worker/orchestration-agent.ts):
 * one `state` field updated in place, an `interval` guard for the simulation timer, and
 * durable storage written after each mutation. Every method is proved against the
 * corresponding function of OrchestrationSpec.
 */
module Orchestration {
  import opened GtmTypes
  import opened ArrayOps
  import opened NumberText
  import opened Routing
  import opened Seed
  import opened OrchestrationSpec

  /** The durable object's key/value storage, reduced to its one key, 'state'. */
  class Storage {
    var entry: Option<GtmSystemState>

    constructor (initial: Option<GtmSystemState>)
      ensures entry == initial
    {
      entry := initial;
    }

    /** `storage.get('state')`. */
    method Get() returns (r: Option<GtmSystemState>)
      ensures r == entry
    {
      r := entry;
    }

    /** `storage.put('state', s)`: stores a copy of `s`. */
    method Put(s: GtmSystemState)
      modifies this
      ensures entry == Some(s)
    {
      entry := Some(s);
    }
  }

  /** JavaScript truthiness of the `interval` field: `null` and the handle 0 are falsy. */
  predicate TimerRunning(interval: Option<int>)
  {
    interval.Some? && interval.value != 0
  }

  class OrchestrationAgent {
    var state: GtmSystemState
    var interval: Option<int>
    const storage: Storage
    /** How many times this instance has called `setInterval`. */
    ghost var timersStarted: nat

    /** What storage holds is exactly the in-memory state. */
    ghost predicate Persisted()
      reads this, storage
    {
      storage.entry == Some(state)
    }

    /**
     * Activation: use the stored state if there is one; otherwise keep the seed and write it
     * to storage. Either way storage and memory agree, and no timer runs yet.
     */
    constructor (storage: Storage)
      modifies storage
      ensures this.storage == storage
      ensures old(storage.entry).Some? ==> state == old(storage.entry).value && storage.entry == old(storage.entry)
      ensures old(storage.entry).None? ==> state == InitialMockState && storage.entry == Some(InitialMockState)
      ensures Persisted()
      ensures interval == None && timersStarted == 0
    {
      this.storage := storage;
      state := InitialMockState;
      interval := None;
      timersStarted := 0;
      new;
      var stored := storage.Get();
      if stored.Some? {
        state := stored.value;
      } else {
        storage.Put(state);
      }
    }

    /** `addEvent`: push the event, then drop the oldest if there are more than 50. */
    method AddEvent(agent: string, action: string, status: EventStatus, at: Instant)
      modifies this
      ensures state == old(state).(events := WithEvent(old(state).events, agent, action, status, at))
      ensures interval == old(interval) && timersStarted == old(timersStarted)
    {
      state := state.(events := state.events + [NewEvent(agent, action, status, at)]);
      if |state.events| > EventCap {
        state := state.(events := state.events[1..]);
      }
    }

    /** `handleEscalation(id, action)`. */
    method HandleEscalation(id: string, action: string, at: Instant) returns (resp: Response)
      modifies this, storage
      ensures state == Resolved(old(state), id, action, at).next
      ensures resp == Resolved(old(state), id, action, at).response
      ensures storage.entry == (if Resolved(old(state), id, action, at).persisted then Some(state) else old(storage.entry))
      ensures interval == old(interval) && timersStarted == old(timersStarted)
    {
      ghost var before := state;
      ghost var outcome := Resolved(before, id, action, at);
      var escalationIndex := EscalationIndex(state.escalations, id);
      if escalationIndex == -1 {
        return NotFound("Escalation not found");
      }
      var escalation := state.escalations[escalationIndex];
      state := state.(escalations := RemoveAt(state.escalations, escalationIndex));
      var eventAction := ResolutionAction(id, action, escalation.reason);
      AddEvent(AgentNameText(Orchestrator), eventAction, Ok, at);
      assert state == outcome.next;
      storage.Put(state);
      resp := Json(Message(ResolutionMessage(id, action)));
    }

    /** `updateConfig(config)`. */
    method UpdateConfig(config: AgentConfig, at: Instant) returns (resp: Response)
      modifies this, storage
      ensures state == ConfigUpdated(old(state), config, at).next
      ensures resp == ConfigUpdated(old(state), config, at).response
      ensures storage.entry == (if ConfigUpdated(old(state), config, at).persisted then Some(state) else old(storage.entry))
      ensures interval == old(interval) && timersStarted == old(timersStarted)
    {
      ghost var outcome := ConfigUpdated(state, config, at);
      var configIndex := ConfigIndex(state.agentConfigs, config.id);
      if configIndex == -1 {
        return NotFound("Config not found");
      }
      state := state.(agentConfigs := state.agentConfigs[configIndex := config]);
      AddEvent(AgentNameText(Orchestrator), "Updated config for " + AgentNameText(config.name), Info, at);
      assert state == outcome.next;
      storage.Put(state);
      resp := Json(SavedConfig(config));
    }

    /**
     * `fetch`: start the simulation timer unless one is already running (`timerHandle` is
     * what `setInterval` returns), then answer the query or run the command the request names.
     */
    method Fetch(req: Request, timerHandle: int, at: Instant) returns (resp: Response)
      modifies this, storage
      ensures old(TimerRunning(interval)) ==> interval == old(interval) && timersStarted == old(timersStarted)
      ensures !old(TimerRunning(interval)) ==> interval == Some(timerHandle) && timersStarted == old(timersStarted) + 1
      ensures state == Dispatched(old(state), req, at).next
      ensures resp == Dispatched(old(state), req, at).response
      ensures storage.entry == (if Dispatched(old(state), req, at).persisted then Some(state) else old(storage.entry))
    {
      if !TimerRunning(interval) {
        interval := Some(timerHandle);
        timersStarted := timersStarted + 1;
      }
      match RouteOf(req.httpMethod, req.pathname)
      case Read(r) =>
        resp := Json(ReadPayload(state, r));
      case Resolve(id) =>
        resp := HandleEscalation(id, req.action, at);
      case Update =>
        resp := UpdateConfig(req.config, at);
      case Unmatched =>
        resp := NotFound("Not Found");
    }

    /** Step 1 of `simulate`: re-read SPEND, add the draw and 100, and write it back formatted. */
    method UpdateSpend(spendDraw: int)
      modifies this
      ensures state == old(state).(metrics := BumpSpend(old(state).metrics, spendDraw))
      ensures interval == old(interval) && timersStarted == old(timersStarted)
    {
      var spendIndex := MetricIndex(state.metrics, SpendLabel);
      if spendIndex != -1 {
        var spendMetric := state.metrics[spendIndex];
        var currentSpend := SpendReading(spendMetric.value);
        var newSpend := AddNumber(AddNumber(currentSpend, spendDraw), 100);
        state := state.(metrics := state.metrics[spendIndex := spendMetric.(value := FormatCurrency(newSpend))]);
      }
    }

    /** Step 3 of `simulate`: push an OBSERVATION log, then drop the oldest if there are more than 50. */
    method AddLog(agent: AgentName, at: Instant)
      modifies this
      ensures state == old(state).(agentLogs := PushCapped(old(state).agentLogs, NewLog(agent, at), LogCap))
      ensures interval == old(interval) && timersStarted == old(timersStarted)
    {
      state := state.(agentLogs := state.agentLogs + [NewLog(agent, at)]);
      if |state.agentLogs| > LogCap {
        state := state.(agentLogs := state.agentLogs[1..]);
      }
    }

    /** Step 4 of `simulate`: when the draw says so and fewer than 3 are pending, push an escalation. */
    method AddSpendEscalation(escalate: bool, millis: nat)
      modifies this
      ensures state == old(state).(escalations := MaybeEscalate(old(state).escalations, escalate, millis))
      ensures interval == old(interval) && timersStarted == old(timersStarted)
    {
      if escalate && |state.escalations| < EscalationCap {
        state := state.(escalations := state.escalations + [SpendEscalation(millis)]);
      }
    }

    /**
     * `simulate()`, one timer tick, with the random draws and clock readings as parameters.
     * `completed` is false when there is no config to pick an agent from: the source then
     * throws after bumping SPEND, and nothing is written to storage.
     */
    method Simulate(d: Draws, eventAt: Instant, logAt: Instant, escalationMillis: nat) returns (completed: bool)
      requires DrawsInRange(state, d)
      modifies this, storage
      ensures state == Ticked(old(state), d, eventAt, logAt, escalationMillis)
      ensures completed == TickCompletes(old(state))
      ensures storage.entry == (if completed then Some(state) else old(storage.entry))
      ensures interval == old(interval) && timersStarted == old(timersStarted)
    {
      // Raise SPEND first; it survives even when no agent can be drawn.
      UpdateSpend(d.spend);
      // The drawn agent's activity event.
      if |state.agentConfigs| == 0 {
        return false;
      }
      var randomAgent := state.agentConfigs[d.agent].name;
      AddEvent(AgentNameText(randomAgent), Activities[d.activity], Info, eventAt);
      // Its OBSERVATION log entry.
      AddLog(randomAgent, logAt);
      // Perhaps a spend escalation.
      AddSpendEscalation(d.escalate, escalationMillis);
      storage.Put(state);
      completed := true;
    }
  }

  /**
   * A restart with durable storage intact reproduces the state: a new activation over the
   * same storage, after any operation that persisted, loads exactly the state in memory.
   */
  method Restart(agent: OrchestrationAgent) returns (revived: OrchestrationAgent)
    requires agent.Persisted()
    modifies agent.storage
    ensures revived.state == agent.state && revived.storage == agent.storage
    ensures revived.interval == None && agent.Persisted()
  {
    revived := new OrchestrationAgent(agent.storage);
  }

  /**
   * The timer starts at most once per instance: after a first request with a non-zero handle
   * a timer is running, and a second request starts no other.
   */
  method TwoRequests(agent: OrchestrationAgent, first: Request, second: Request, handle: int, handle2: int, at: Instant, at2: Instant)
    returns (r1: Response, r2: Response)
    requires handle != 0
    modifies agent, agent.storage
    ensures TimerRunning(agent.interval)
    ensures agent.timersStarted <= old(agent.timersStarted) + 1
    ensures old(agent.interval) == None ==> agent.interval == Some(handle) && agent.timersStarted == old(agent.timersStarted) + 1
  {
    r1 := agent.Fetch(first, handle, at);
    assert TimerRunning(agent.interval);
    r2 := agent.Fetch(second, handle2, at2);
  }
}
