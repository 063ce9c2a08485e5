/** The records exchanged between the client and the server: the user as the
    client sees it, mood entries, AI analyses, chat messages and the request
    bodies of the REST interface. */
module Types {
  import opened Wrappers

  datatype Mood = Great | Good | Neutral | Bad | Awful

  datatype Role = Member | Admin

  /** A user as sent to the client; the server's JSON form never carries the password. */
  datatype User = User(id: string, name: string, email: string, groupId: string, role: Role, avatar: string)

  /** A daily check-in.  The timestamp is an instant (milliseconds); the AI-derived
      fields are optional, as they are in the stored documents. */
  datatype Entry = Entry(
    id: string,
    userId: string,
    timestamp: int,
    mood: Mood,
    stressLevel: int,
    energyLevel: int,
    sleepQuality: int,
    note: string,
    sentimentScore: Option<real>,
    burnoutRisk: Option<bool>,
    aiIntervention: Option<string>,
    tags: Option<seq<string>>)

  /** What the AI analysis of one note yields. */
  datatype Analysis = Analysis(sentimentScore: real, burnoutRisk: bool, aiIntervention: string, tags: seq<string>)

  datatype RiskLevel = Low | Medium | High

  datatype GroupAnalysis = GroupAnalysis(
    overallWellnessScore: int,
    burnoutRiskLevel: RiskLevel,
    summary: string,
    recommendations: seq<string>,
    lastUpdated: string)

  /** The two speakers of the client-side chat transcript, `'user'` and `'model'`. */
  datatype ChatRole = UserRole | ModelRole {
    function Name(): string {
      match this
      case UserRole => "user"
      case ModelRole => "model"
    }
  }

  datatype ChatMessage = ChatMessage(role: ChatRole, text: string)

  /** One element of the chat history as it travels to the server:
      `{role, parts: [{text}], text}`; an absent or empty text is `""`. */
  datatype HistoryMessage = HistoryMessage(role: string, parts: seq<string>, text: string)

  /** The body of `POST /api/signup`; an absent password is `None`. */
  datatype SignupBody = SignupBody(name: string, email: string, role: Role, groupCode: string, password: Option<string>)

  /** What `GET /api/groups/:groupId` answers. */
  datatype GroupStatus = GroupStatus(announcement: string, vibes: int, userVibedToday: bool)
}
