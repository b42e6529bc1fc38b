/** The baseline snapshot a fresh agent starts from (`initialMockState`, worker/orchestration-agent.ts). */
module Seed {
  import opened GtmTypes

  const InitialAnalyticsData: seq<AnalyticsDataPoint> :=
    [ AnalyticsDataPoint("Jan", 120000, 18000, 90000),
      AnalyticsDataPoint("Feb", 150000, 17500, 92000),
      AnalyticsDataPoint("Mar", 220000, 16000, 110000),
      AnalyticsDataPoint("Apr", 200000, 15500, 115000),
      AnalyticsDataPoint("May", 280000, 14000, 130000),
      AnalyticsDataPoint("Jun", 350000, 13500, 150000),
      AnalyticsDataPoint("Jul", 450000, 12831, 165000) ]

  function PlainMetric(caption: string, value: string): Metric
  {
    Metric(caption, value, None, None)
  }

  const InitialMetrics: seq<Metric> :=
    [ PlainMetric("BUDGET", "$200,000"),
      PlainMetric("SPEND", "$76,591"),
      PlainMetric("CAC TARGET", "$15,000"),
      PlainMetric("CURRENT CAC", "$12,831"),
      PlainMetric("PIPELINE", "$450,000"),
      PlainMetric("CLOSED WON", "6") ]

  const InitialMissionParameters: seq<MissionParameter> :=
    [ MissionParameter("MISSION GOAL", "Acquire 10 enterprise SaaS customers in Q4"),
      MissionParameter("TOTAL BUDGET", "$200,000"),
      MissionParameter("RISK TOLERANCE", "MEDIUM"),
      MissionParameter("BRAND VOICE", "Professional, Innovative") ]

  const InitialEscalations: seq<Escalation> :=
    [ Escalation("ESC-001", "DEAL DESK AGENT", "DISCOUNT > 20%",
        "Prospect \"Innovate Inc.\" requests a 25% discount on a $150k annual contract. Standard policy allows for 20%.",
        "2m ago") ]

  const InitialEvents: seq<Event> :=
    [ Event("EVT-3456", "10:45:12Z", "ORCHESTRATOR", "Mission Start: Q4 Enterprise Acquisition", Ok),
      Event("EVT-3457", "10:45:13Z", "FINOPS AGENT", "Budget of $200,000 allocated.", Info) ]

  const InitialAgentLogs: seq<AgentLog> :=
    [ AgentLog("LOG-001", "10:46:20Z", SdoAgent, Reasoning,
        "Mission goal requires enterprise SaaS leads. Querying Crunchbase for companies with >$20M funding in the SaaS sector."),
      AgentLog("LOG-002", "10:48:55Z", SdoAgent, Observation,
        "API returned 250 companies. Filtering to match ICP criteria (US-based, >100 employees).") ]

  const InitialAgentConfigs: seq<AgentConfig> :=
    [ AgentConfig("sdo-agent", SdoAgent, true, 500, "LOW"),
      AgentConfig("engagement-agent", EngagementAgent, true, 2000, "LOW"),
      AgentConfig("deal-desk-agent", DealDeskAgent, true, 100, "MEDIUM"),
      AgentConfig("finops-agent", FinopsAgent, true, 1000, "HIGH"),
      AgentConfig("expansion-agent", ExpansionAgent, false, 500, "MEDIUM") ]

  /** `initialMockState`: the seven parts of the snapshot. */
  const InitialMockState: GtmSystemState :=
    GtmSystemState(InitialMetrics, InitialMissionParameters, InitialEscalations, InitialEvents,
      InitialAgentLogs, InitialAgentConfigs, InitialAnalyticsData)
}
