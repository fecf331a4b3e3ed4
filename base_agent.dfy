/**
 * app/agents/base_agent.py: the status bookkeeping every agent shares.
 * `datetime.now()` is an abstract clock reading passed in by the caller.
 */
module BaseAgents {

  /** What `get_info` reports. */
  datatype AgentInfo = AgentInfo(agentId: string, agentType: string, status: string, createdAt: int, lastActivity: int)

  class BaseAgent {
    const agentId: string
    const agentType: string
    var status: string
    const createdAt: int
    var lastActivity: int

    /** A new agent is "idle"; its creation and last-activity times are both `now`. */
    constructor (agentId: string, agentType: string, now: int)
      ensures this.agentId == agentId && this.agentType == agentType
      ensures status == "idle"
      ensures createdAt == now && lastActivity == now
    {
      this.agentId := agentId;
      this.agentType := agentType;
      status := "idle";
      createdAt := now;
      lastActivity := now;
    }

    /** `update_status`: sets the status and refreshes the last-activity time; id, type and creation time stay. */
    method UpdateStatus(newStatus: string, now: int)
      modifies this
      ensures status == newStatus && lastActivity == now
    {
      status := newStatus;
      lastActivity := now;
    }

    /** `get_info`: the current id, type, status and both times. */
    function GetInfo(): (info: AgentInfo)
      reads this
      ensures info.agentId == agentId && info.agentType == agentType && info.status == status
      ensures info.createdAt == createdAt && info.lastActivity == lastActivity
    {
      AgentInfo(agentId, agentType, status, createdAt, lastActivity)
    }
  }

  /** After an update, `get_info` reports the new status under the same identity. */
  method StatusRoundTrip(agent: BaseAgent, newStatus: string, now: int) returns (info: AgentInfo)
    modifies agent
    ensures info == AgentInfo(agent.agentId, agent.agentType, newStatus, agent.createdAt, now)
  {
    agent.UpdateStatus(newStatus, now);
    info := agent.GetInfo();
  }
}
