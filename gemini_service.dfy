/** The client's AI service calls, reduced to what they make of the server's
    answer: `analyzeMoodEntry` and `generateGroupReport` never fail (they fall
    back to fixed values), `getChatResponse` yields the reply text or an error
    message. */
module GeminiService {
  import opened Wrappers
  import opened Types
  import opened Fetch
  import JsText

  const OfflineIntervention := "Take a deep breath and stay hydrated. (Offline/Demo Mode)"
  const OfflineTag := "Offline Mode"
  const ReportFailurePrefix := "Report Generation Failed: "
  const ReportFallbackRecommendations := ["Ensure server is running", "Check server/.env API_KEY", "Check Server Console Logs"]
  const MissingApiKey := "MISSING_API_KEY"

  /** What the analysis falls back to when the server cannot be used. */
  function OfflineAnalysis(stressLevel: int): Analysis {
    Analysis(0.0, stressLevel > 7, OfflineIntervention, [OfflineTag])
  }

  /** `analyzeMoodEntry(note, stressLevel)`, given the server's response to it. */
  function AnalyzeMoodEntry(stressLevel: int, response: Response<Analysis>): (a: Analysis)
    ensures Succeeded(response) ==> a == response.json.value
    ensures !Succeeded(response) ==>
              && a.sentimentScore == 0.0
              && (a.burnoutRisk <==> stressLevel > 7)
              && a.aiIntervention == OfflineIntervention
              && a.tags == ["Offline Mode"]
  {
    if Succeeded(response) then response.json.value else OfflineAnalysis(stressLevel)
  }

  /** The message of the error `generateGroupReport` catches when it does not succeed. */
  function ReportErrorMessage(response: Response<GroupAnalysis>): string
    requires !Succeeded(response)
  {
    match response
    case Rejected(message) => message
    case Received(status, text, json) =>
      if !IsOk(status) then (if text != "" then text else "Group Report Service Failed")
      else json.message
  }

  /** The report shown when generation fails. */
  function FailedReport(message: string, now: string): GroupAnalysis {
    GroupAnalysis(0, Low, ReportFailurePrefix + (if message != "" then message else "Unknown Error"),
                  ReportFallbackRecommendations, now)
  }

  /** `generateGroupReport(entries)`, given the server's response and the current time. */
  function GenerateGroupReport(response: Response<GroupAnalysis>, now: string): (r: GroupAnalysis)
    ensures Succeeded(response) ==> r == response.json.value
    ensures !Succeeded(response) ==>
              && r.overallWellnessScore == 0
              && r.burnoutRiskLevel == Low
              && ReportFailurePrefix <= r.summary
              && r.recommendations == ["Ensure server is running", "Check server/.env API_KEY", "Check Server Console Logs"]
              && r.lastUpdated == now
    ensures response.Rejected? ==>
              r.summary == ReportFailurePrefix + (if response.message != "" then response.message else "Unknown Error")
    ensures response.Received? && !IsOk(response.status) ==>
              r.summary == ReportFailurePrefix + (if response.text != "" then response.text else "Group Report Service Failed")
    ensures response.Received? && IsOk(response.status) && response.json.Malformed? ==>
              r.summary == ReportFailurePrefix + (if response.json.message != "" then response.json.message else "Unknown Error")
  {
    if Succeeded(response) then response.json.value
    else FailedReport(ReportErrorMessage(response), now)
  }

  /** The chat endpoint's JSON: `{ text }`, where the text may be null. */
  datatype ChatJson = ChatJson(text: Option<string>)

  /** The outcome of the `try` block of `getChatResponse`. */
  function ChatAttempt(response: Response<ChatJson>): Result<Option<string>> {
    match response
    case Rejected(message) => Err(message)
    case Received(status, text, json) =>
      if !IsOk(status) then
        if status == 503 then Err(MissingApiKey)
        else Err(if text != "" then text else "Network Error")
      else if json.Parsed? then Ok(json.value.text)
      else Err(json.message)
  }

  /** `getChatResponse(history, message)`, given the server's response: the
      reply text, or the message of the error it throws (any message that
      mentions the missing key becomes exactly `MISSING_API_KEY`). */
  function GetChatResponse(response: Response<ChatJson>): (r: Result<Option<string>>)
    ensures Succeeded(response) ==> r == Ok(response.json.value.text)
    ensures response.Received? && response.status == 503 ==> r == Err("MISSING_API_KEY")
    ensures response.Received? && !IsOk(response.status) && response.status != 503 ==>
              r == Err(if response.text == "" then "Network Error"
                       else if JsText.Includes(response.text, "MISSING_API_KEY") then "MISSING_API_KEY"
                       else response.text)
    ensures r.Err? && JsText.Includes(r.message, "MISSING_API_KEY") ==> r.message == "MISSING_API_KEY"
    ensures r.Ok? <==> Succeeded(response)
  {
    var attempt := ChatAttempt(response);
    JsText.ShorterExcludes("Network Error", MissingApiKey);
    if attempt.Err? && JsText.Includes(attempt.message, MissingApiKey) then Err(MissingApiKey)
    else attempt
  }
}
