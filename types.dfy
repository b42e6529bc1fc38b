/** The records and enumerations that make up the GTM system state (worker/types.ts). */
module GtmTypes {

  /** An optional value; `None` stands for JavaScript's `undefined` or `null`. */
  datatype Option<+T> = None | Some(value: T)

  /** EventStatus: 'OK' | 'WARN' | 'FAIL' | 'INFO'. */
  datatype EventStatus = Ok | Warn | Fail | Info

  /** AgentName: the six agents the system knows. */
  datatype AgentName =
    | Orchestrator
    | SdoAgent
    | EngagementAgent
    | DealDeskAgent
    | FinopsAgent
    | ExpansionAgent

  /** LogType: 'REASONING' | 'OBSERVATION' | 'ACTION'. */
  datatype LogType = Reasoning | Observation | Action

  /** The optional `changeType` of a metric: 'increase' | 'decrease'. */
  datatype ChangeType = Increase | Decrease

  /** The string each agent name stands for in the source. */
  function AgentNameText(a: AgentName): string
  {
    match a
    case Orchestrator => "ORCHESTRATOR"
    case SdoAgent => "SDO AGENT"
    case EngagementAgent => "ENGAGEMENT AGENT"
    case DealDeskAgent => "DEAL DESK AGENT"
    case FinopsAgent => "FINOPS AGENT"
    case ExpansionAgent => "EXPANSION AGENT"
  }

  /** Different agents are written differently, so the text determines the agent. */
  lemma AgentNameTextInjective(a: AgentName, b: AgentName)
    ensures AgentNameText(a) == AgentNameText(b) ==> a == b
  {
  }

  /** `caption` is the source's `label` field (a reserved word in Dafny), the metric's key. */
  datatype Metric = Metric(caption: string, value: string, change: Option<string>, changeType: Option<ChangeType>)

  datatype MissionParameter = MissionParameter(caption: string, value: string)

  datatype Escalation = Escalation(id: string, agent: string, reason: string, details: string, timestamp: string)

  datatype Event = Event(id: string, timestamp: string, agent: string, action: string, status: EventStatus)

  /** `logType` is the source's `type` field (a reserved word in Dafny). */
  datatype AgentLog = AgentLog(id: string, timestamp: string, agent: AgentName, logType: LogType, content: string)

  /** `apiQuotaPerDay` is a JavaScript number; the model keeps it integral. */
  datatype AgentConfig = AgentConfig(id: string, name: AgentName, enabled: bool, apiQuotaPerDay: int, riskThreshold: string)

  datatype AnalyticsDataPoint = AnalyticsDataPoint(month: string, pipeline: int, cac: int, ltv: int)

  /** The one aggregate the orchestration agent owns. Lists keep the source's order (oldest first). */
  datatype GtmSystemState = GtmSystemState(
    metrics: seq<Metric>,
    missionParameters: seq<MissionParameter>,
    escalations: seq<Escalation>,
    events: seq<Event>,
    agentLogs: seq<AgentLog>,
    agentConfigs: seq<AgentConfig>,
    analyticsData: seq<AnalyticsDataPoint>)
}
