/** The backend's in-memory session table. Timestamps, the clock-derived session
    id and the duration computed at the end are not modelled: the id is a
    parameter. */
module SessionLog {

  import opened Payload

  datatype Status = Active | Completed {
    function Label(): string
    {
      match this
      case Active => "active"
      case Completed => "completed"
    }
  }

  datatype LoggedMessage = LoggedMessage(sender: string, message: string)

  datatype SessionRecord = SessionRecord(
    userInfo: map<string, string>,
    messages: seq<LoggedMessage>,
    assessmentResults: Option<Dict>,
    recommendations: seq<Recommendation>,
    status: Status)

  /** The record a new session starts with. */
  function NewRecord(userInfo: map<string, string>): SessionRecord
  {
    SessionRecord(userInfo, [], None, [], Active)
  }

  class SessionLogger {
    var sessionData: map<string, SessionRecord>

    constructor ()
      ensures sessionData == map[]
    {
      sessionData := map[];
    }

    /** `log_session_start`: stores a fresh active record under `sessionId`,
        replacing any record already there, and returns the id. */
    method LogSessionStart(sessionId: string, userInfo: map<string, string>) returns (id: string)
      modifies this
      ensures id == sessionId
      ensures sessionData == old(sessionData)[sessionId := NewRecord(userInfo)]
      ensures sessionData[id].status == Active && sessionData[id].messages == []
      ensures sessionData[id].assessmentResults.None? && sessionData[id].recommendations == []
    {
      sessionData := sessionData[sessionId := NewRecord(userInfo)];
      id := sessionId;
    }

    /** `log_message`: appends one entry to the end of that session's messages;
        an unknown id leaves the table as it is. */
    method LogMessage(sessionId: string, sender: string, message: string)
      modifies this
      ensures sessionId !in old(sessionData) ==> sessionData == old(sessionData)
      ensures sessionData.Keys == old(sessionData).Keys
      ensures forall k :: k in sessionData && k != sessionId ==> sessionData[k] == old(sessionData)[k]
      ensures sessionId in old(sessionData) ==>
        var was := old(sessionData)[sessionId];
        sessionData[sessionId] == was.(messages := was.messages + [LoggedMessage(sender, message)])
    {
      if sessionId in sessionData {
        var rec := sessionData[sessionId];
        sessionData := sessionData[sessionId := rec.(messages := rec.messages + [LoggedMessage(sender, message)])];
      }
    }

    /** `log_assessment_results`: stores the results on a known session. */
    method LogAssessmentResults(sessionId: string, results: Dict)
      modifies this
      ensures sessionId !in old(sessionData) ==> sessionData == old(sessionData)
      ensures sessionId in old(sessionData) ==>
        sessionData == old(sessionData)[sessionId := old(sessionData)[sessionId].(assessmentResults := Some(results))]
    {
      if sessionId in sessionData {
        sessionData := sessionData[sessionId := sessionData[sessionId].(assessmentResults := Some(results))];
      }
    }

    /** `log_session_end`: marks a known session completed and stores the
        recommendations; its messages and results stay as they were. */
    method LogSessionEnd(sessionId: string, recommendations: seq<Recommendation>)
      modifies this
      ensures sessionId !in old(sessionData) ==> sessionData == old(sessionData)
      ensures sessionId in old(sessionData) ==>
        var was := old(sessionData)[sessionId];
        sessionData == old(sessionData)[sessionId := was.(recommendations := recommendations, status := Completed)]
        && sessionData[sessionId].messages == was.messages
        && sessionData[sessionId].assessmentResults == was.assessmentResults
    {
      if sessionId in sessionData {
        var rec := sessionData[sessionId];
        sessionData := sessionData[sessionId := rec.(recommendations := recommendations, status := Completed)];
      }
    }

    /** `get_session_data`. */
    function GetSessionData(sessionId: string): (r: Option<SessionRecord>)
      reads this
      ensures r.Some? <==> sessionId in sessionData
      ensures r.Some? ==> r.value == sessionData[sessionId]
    {
      if sessionId in sessionData then Some(sessionData[sessionId]) else None
    }
  }

  /** A client of the table: a session started, messaged twice and ended holds
      both messages in order and is completed. */
  method SessionLifecycle(userInfo: map<string, string>, recs: seq<Recommendation>)
  {
    var log := new SessionLogger();
    var id := log.LogSessionStart("s1", userInfo);
    log.LogMessage(id, "user", "hello");
    log.LogMessage("unknown", "user", "lost");
    log.LogMessage(id, "bot", "hi");
    log.LogSessionEnd(id, recs);
    assert log.GetSessionData("unknown").None?;
    var rec := log.GetSessionData(id);
    assert rec.Some? && rec.value.status == Completed;
    assert rec.value.messages == [LoggedMessage("user", "hello"), LoggedMessage("bot", "hi")];
    assert rec.value.recommendations == recs;
  }
}
