/** The REST server: user registry, mood entries and groups (announcement
    board and daily vibe counter), kept in one in-memory store whose handlers
    run one at a time, plus the two pure projections the AI routes apply to
    their inputs (chat history remapping and the report summary). */
module Server {
  import opened Wrappers
  import opened Types
  import opened Seqs
  import JsText

  /** The password a user gets when signup supplies none. */
  const DefaultPassword := "password123"
  const AvatarBase := "https://api.dicebear.com/7.x/avataaars/svg?seed="

  /** A stored user document. */
  datatype UserRecord = UserRecord(
    id: string, name: string, email: string, password: string,
    role: Role, groupId: string, avatar: string)

  /** The JSON form of a user document: everything but the password. */
  function Public(u: UserRecord): User {
    User(u.id, u.name, u.email, u.groupId, u.role, u.avatar)
  }

  /** A handler's answer: a JSON payload, or an error status with its message. */
  datatype Reply<T> = Success(value: T) | Failure(status: int, error: string)

  datatype VibeRecord = VibeRecord(userId: string, date: string)

  /** A group document; its key (the upper-cased group id) is the key of the store's map. */
  datatype Group = Group(announcement: string, vibes: int, vibeHistory: seq<VibeRecord>)

  /** A group as the schema's defaults create it. */
  const NewGroup := Group("", 0, [])

  // ---------------------------------------------------------------- users

  predicate EmailMatches(u: UserRecord, email: string) {
    JsText.EqualsIgnoringCase(u.email, email)
  }

  /** `User.findOne` by e-mail, ignoring case: the first matching document. */
  function FindByEmail(users: seq<UserRecord>, email: string): Option<UserRecord> {
    FindFirst(users, (u: UserRecord) => EmailMatches(u, email))
  }

  /** No two users have e-mails that are equal ignoring case. */
  ghost predicate DistinctEmails(users: seq<UserRecord>) {
    forall i, j :: 0 <= i < j < |users| ==> !JsText.EqualsIgnoringCase(users[i].email, users[j].email)
  }

  /** The schema's `required` fields are present and non-empty. */
  predicate Storable(u: UserRecord) {
    u.name != "" && u.email != "" && u.password != "" && u.groupId != ""
  }

  /** The document signup creates. */
  function NewUser(body: SignupBody, id: string): UserRecord {
    var password := if body.password.Some? && body.password.value != "" then body.password.value else DefaultPassword;
    UserRecord(id, body.name, body.email, password, body.role, JsText.Upper(body.groupCode), AvatarBase + body.name)
  }

  /** The users of one group, in store order, as JSON. */
  function Members(users: seq<UserRecord>, groupId: string): seq<User> {
    Map(Filter(users, (u: UserRecord) => u.groupId == JsText.Upper(groupId)), Public)
  }

  /** Login finds a user exactly when one has this e-mail (ignoring case) and
      exactly this password: with distinct e-mails, the first match is the only one. */
  lemma LoginSucceedsIff(users: seq<UserRecord>, email: string, password: string)
    requires DistinctEmails(users)
    ensures (FindByEmail(users, email).Some? && FindByEmail(users, email).value.password == password)
        <==> exists i :: 0 <= i < |users| && EmailMatches(users[i], email) && users[i].password == password
  {
    var found := FindByEmail(users, email);
    if found.Some? {
      var k :| 0 <= k < |users| && users[k] == found.value && EmailMatches(users[k], email);
      forall i | 0 <= i < |users| && EmailMatches(users[i], email)
        ensures i == k
      {
        JsText.EqualsIgnoringCaseIsEquivalence(users[i].email, email, users[k].email);
      }
    }
  }

  /** Adding a user whose e-mail matches nobody's keeps the e-mails distinct. */
  lemma AddUserKeepsEmailsDistinct(users: seq<UserRecord>, u: UserRecord)
    requires DistinctEmails(users) && FindByEmail(users, u.email).None?
    ensures DistinctEmails(users + [u])
  {
    forall i | 0 <= i < |users|
      ensures !JsText.EqualsIgnoringCase(users[i].email, u.email)
    {
      assert !EmailMatches(users[i], u.email);
    }
  }

  /** The listing holds exactly the users whose group is the upper-cased query,
      in store order; the query's case does not matter. */
  lemma {:induction false} MembersAreTheGroup(users: seq<UserRecord>, groupId: string)
    ensures forall v :: v in Members(users, groupId) ==> v.groupId == JsText.Upper(groupId)
    ensures forall u :: u in users && u.groupId == JsText.Upper(groupId) ==> Public(u) in Members(users, groupId)
    ensures Members(users, JsText.Upper(groupId)) == Members(users, groupId)
  {
    var p := (u: UserRecord) => u.groupId == JsText.Upper(groupId);
    var kept := Filter(users, p);
    forall v | v in Members(users, groupId)
      ensures v.groupId == JsText.Upper(groupId)
    {
      var i :| 0 <= i < |kept| && Members(users, groupId)[i] == v;
      assert kept[i] in kept;
    }
    forall u | u in users && u.groupId == JsText.Upper(groupId)
      ensures Public(u) in Members(users, groupId)
    {
      FilterKeeps(users, p, u);
      var i :| 0 <= i < |kept| && kept[i] == u;
      assert Members(users, groupId)[i] == Public(u);
    }
    JsText.UpperIdempotent(groupId);
  }

  // ---------------------------------------------------------------- groups

  /** The history already holds a record of this user on this day
      (the `vibeHistory.some(...)` scan). */
  predicate HasVibed(history: seq<VibeRecord>, userId: string, today: string) {
    Any(history, (h: VibeRecord) => h.userId == userId && h.date == today)
  }

  /** The counter equals the number of history records, and no (user, day)
      pair is recorded twice. */
  ghost predicate GroupValid(g: Group) {
    && g.vibes == |g.vibeHistory|
    && forall i, j :: 0 <= i < j < |g.vibeHistory| ==> g.vibeHistory[i] != g.vibeHistory[j]
  }

  function Lookup(groups: map<string, Group>, key: string): Option<Group> {
    if key in groups then Some(groups[key]) else None
  }

  /** `GET /api/groups/:groupId` on the group found (or not) under the key. */
  function Status(g: Option<Group>, userId: string, today: string): GroupStatus {
    match g
    case None => GroupStatus("", 0, false)
    case Some(grp) => GroupStatus(grp.announcement, grp.vibes, userId != "" && HasVibed(grp.vibeHistory, userId, today))
  }

  /** `POST /api/groups/:groupId/vibes` on the group found (or not) under the key:
      the group to save, or the daily-limit rejection. */
  function Vibe(g: Option<Group>, userId: string, today: string): Reply<Group> {
    match g
    case None => Success(Group("", 1, [VibeRecord(userId, today)]))
    case Some(grp) =>
      if HasVibed(grp.vibeHistory, userId, today) then Failure(400, "Daily vibe limit reached")
      else Success(grp.(vibes := grp.vibes + 1, vibeHistory := grp.vibeHistory + [VibeRecord(userId, today)]))
  }

  /** The announcement upsert: only the announcement changes; an absent group
      is created with the schema's defaults. */
  function Upsert(g: Option<Group>, announcement: string): Group {
    g.GetOr(NewGroup).(announcement := announcement)
  }

  /** A vibe is rejected exactly when the group exists and already records
      this user on this day. */
  lemma VibeRejectedIff(g: Option<Group>, userId: string, today: string)
    ensures Vibe(g, userId, today).Failure? <==>
            g.Some? && exists i :: 0 <= i < |g.value.vibeHistory| && g.value.vibeHistory[i] == VibeRecord(userId, today)
    ensures Vibe(g, userId, today).Failure? ==> Vibe(g, userId, today) == Failure(400, "Daily vibe limit reached")
  {
  }

  /** An accepted vibe is one increment and one appended record on the group,
      or on a freshly created one when the group is absent; the announcement stays. */
  lemma VibeAddsOneRecord(g: Option<Group>, userId: string, today: string)
    requires Vibe(g, userId, today).Success?
    ensures var before := g.GetOr(NewGroup);
            var after := Vibe(g, userId, today).value;
            && after.vibes == before.vibes + 1
            && after.vibeHistory == before.vibeHistory + [VibeRecord(userId, today)]
            && after.announcement == before.announcement
  {
  }

  /** Vibes keep the counter equal to the history length and at most one
      record per (user, day). */
  lemma VibeKeepsGroupValid(g: Option<Group>, userId: string, today: string)
    requires g.Some? ==> GroupValid(g.value)
    requires Vibe(g, userId, today).Success?
    ensures GroupValid(Vibe(g, userId, today).value)
  {
    if g.Some? {
      var h := g.value.vibeHistory;
      var h' := Vibe(g, userId, today).value.vibeHistory;
      forall i | 0 <= i < |h|
        ensures h'[i] != h'[|h|]
      {
        assert h'[i] == h[i];
        assert !(h[i].userId == userId && h[i].date == today);
      }
    }
  }

  /** A second vibe by the same user on the same day is rejected. */
  lemma SecondVibeSameDayRejected(g: Option<Group>, userId: string, today: string)
    requires Vibe(g, userId, today).Success?
    ensures Vibe(Some(Vibe(g, userId, today).value), userId, today) == Failure(400, "Daily vibe limit reached")
  {
    var h' := Vibe(g, userId, today).value.vibeHistory;
    assert h'[|h'| - 1] == VibeRecord(userId, today);
  }

  /** The group read reports `userVibedToday` exactly when a vibe from this
      (non-empty) user would now be rejected. */
  lemma StatusPredictsVibe(g: Option<Group>, userId: string, today: string)
    requires userId != ""
    ensures Status(g, userId, today).userVibedToday <==> Vibe(g, userId, today).Failure?
  {
  }

  /** The upsert keeps the vibe counter and history, so it keeps a group valid;
      a created group starts valid. */
  lemma UpsertKeepsGroupValid(g: Option<Group>, announcement: string)
    requires g.Some? ==> GroupValid(g.value)
    ensures GroupValid(Upsert(g, announcement))
    ensures Upsert(g, announcement).announcement == announcement
    ensures Upsert(g, announcement).vibeHistory == g.GetOr(NewGroup).vibeHistory
  {
  }

  // ---------------------------------------------------------------- entries

  ghost predicate SortedByTime(s: seq<Entry>) {
    forall i, j :: 0 <= i < j < |s| ==> s[i].timestamp <= s[j].timestamp
  }

  function InsertByTime(e: Entry, s: seq<Entry>): (r: seq<Entry>)
    requires SortedByTime(s)
    ensures SortedByTime(r)
    ensures forall x :: x in r ==> x == e || x in s
    ensures multiset(r) == multiset(s) + multiset{e}
  {
    if s == [] then [e]
    else if e.timestamp <= s[0].timestamp then
      ConsSorted(e, s);
      [e] + s
    else
      var rest := InsertByTime(e, s[1..]);
      ConsSorted(s[0], rest);
      assert s == [s[0]] + s[1..];
      [s[0]] + rest
  }

  lemma ConsSorted(x: Entry, s: seq<Entry>)
    requires SortedByTime(s)
    requires forall y :: y in s ==> x.timestamp <= y.timestamp
    ensures SortedByTime([x] + s)
  {
    var r := [x] + s;
    forall i, j | 0 <= i < j < |r|
      ensures r[i].timestamp <= r[j].timestamp
    {
      assert r[j] == s[j - 1];
      if i > 0 {
        assert r[i] == s[i - 1];
      }
    }
  }

  /** The entries in ascending timestamp order (`sort({ timestamp: 1 })`). */
  function SortByTime(s: seq<Entry>): (r: seq<Entry>)
    ensures SortedByTime(r)
    ensures multiset(r) == multiset(s)
  {
    if s == [] then []
    else
      assert s == [s[0]] + s[1..];
      InsertByTime(s[0], SortByTime(s[1..]))
  }

  // ---------------------------------------------------------------- AI inputs

  /** A chat turn in the provider's format. */
  datatype Turn = Turn(role: string, content: string)

  /** The text of a history message: the first part's text, else the flat text, else empty. */
  function Content(m: HistoryMessage): string {
    if |m.parts| > 0 && m.parts[0] != "" then m.parts[0]
    else if m.text != "" then m.text
    else ""
  }

  function ProviderRole(role: string): string {
    if role == "model" then "assistant" else role
  }

  function Format(m: HistoryMessage): Turn {
    Turn(ProviderRole(m.role), Content(m))
  }

  /** `formattedHistory`: the history (absent means empty) in the provider's
      format, then the new message from the user. */
  function ChatTurns(history: Option<seq<HistoryMessage>>, message: string): (r: seq<Turn>)
    ensures var h := history.GetOr([]);
            && |r| == |h| + 1
            && r[|h|] == Turn("user", message)
            && forall i :: 0 <= i < |h| ==>
                 && r[i].content == Content(h[i])
                 && (h[i].role == "model" ==> r[i].role == "assistant")
                 && (h[i].role != "model" ==> r[i].role == h[i].role)
  {
    Map(history.GetOr([]), Format) + [Turn("user", message)]
  }

  /** The report input keeps only stress, mood and tags of each entry. */
  datatype ReportRow = ReportRow(s: int, m: Mood, t: Option<seq<string>>)

  function Summary(e: Entry): ReportRow {
    ReportRow(e.stressLevel, e.mood, e.tags)
  }

  /** `summaryData`. */
  function SummaryData(entries: seq<Entry>): (r: seq<ReportRow>)
    ensures |r| == |entries|
    ensures forall i :: 0 <= i < |r| ==>
              r[i] == ReportRow(entries[i].stressLevel, entries[i].mood, entries[i].tags)
  {
    Map(entries, Summary)
  }

  /** Notes, users, timestamps and scores never reach the report prompt: two
      entry lists that agree on stress, mood and tags give the same input. */
  lemma SummaryIgnoresOtherFields(a: seq<Entry>, b: seq<Entry>)
    requires |a| == |b|
    requires forall i :: 0 <= i < |a| ==>
               a[i].stressLevel == b[i].stressLevel && a[i].mood == b[i].mood && a[i].tags == b[i].tags
    ensures SummaryData(a) == SummaryData(b)
  {
  }

  // ---------------------------------------------------------------- the store

  class Store {
    var users: seq<UserRecord>
    var groups: map<string, Group>
    var entries: seq<Entry>

    ghost predicate Valid()
      reads this
    {
      && DistinctEmails(users)
      && forall key :: key in groups ==> GroupValid(groups[key])
    }

    constructor ()
      ensures Valid()
      ensures users == [] && groups == map[] && entries == []
    {
      users, groups, entries := [], map[], [];
    }

    /** `POST /api/login`. */
    method Login(email: string, password: string) returns (r: Reply<User>)
      ensures var found := FindByEmail(users, email);
              if found.Some? && found.value.password == password
              then r == Success(Public(found.value))
              else r == Failure(401, "Invalid credentials")
    {
      var found := FindByEmail(users, email);
      if found.Some? && found.value.password == password {
        r := Success(Public(found.value));
      } else {
        r := Failure(401, "Invalid credentials");
      }
    }

    /** `POST /api/signup`. */
    method Signup(body: SignupBody, newId: string) returns (r: Reply<User>)
      requires Valid()
      modifies this
      ensures Valid()
      ensures groups == old(groups) && entries == old(entries)
      ensures FindByEmail(old(users), body.email).Some? ==>
                r == Failure(400, "User already exists") && users == old(users)
      ensures FindByEmail(old(users), body.email).None? && !Storable(NewUser(body, newId)) ==>
                r == Failure(500, "Error creating user") && users == old(users)
      ensures FindByEmail(old(users), body.email).None? && Storable(NewUser(body, newId)) ==>
                r == Success(Public(NewUser(body, newId))) && users == old(users) + [NewUser(body, newId)]
    {
      var existing := FindByEmail(users, body.email);
      if existing.Some? {
        return Failure(400, "User already exists");
      }
      var u := NewUser(body, newId);
      if !Storable(u) {
        return Failure(500, "Error creating user");
      }
      AddUserKeepsEmailsDistinct(users, u);
      users := users + [u];
      r := Success(Public(u));
    }

    /** `GET /api/users?groupId=`. */
    method ListUsers(groupId: string) returns (r: Reply<seq<User>>)
      ensures groupId == "" ==> r == Failure(400, "GroupId required")
      ensures groupId != "" ==> r == Success(Members(users, groupId))
    {
      if groupId == "" {
        return Failure(400, "GroupId required");
      }
      r := Success(Members(users, groupId));
    }

    /** `GET /api/groups/:groupId?userId=`. */
    method ReadGroup(groupId: string, userId: string, today: string) returns (r: GroupStatus)
      ensures r == Status(Lookup(groups, JsText.Upper(groupId)), userId, today)
    {
      var key := JsText.Upper(groupId);
      if key !in groups {
        return GroupStatus("", 0, false);
      }
      var g := groups[key];
      var vibed := false;
      if userId != "" {
        vibed := HasVibed(g.vibeHistory, userId, today);
      }
      r := GroupStatus(g.announcement, g.vibes, vibed);
    }

    /** `POST /api/groups/:groupId/announcement`. */
    method PostAnnouncement(groupId: string, announcement: string) returns (r: string)
      requires Valid()
      modifies this
      ensures Valid()
      ensures users == old(users) && entries == old(entries)
      ensures var key := JsText.Upper(groupId);
              groups == old(groups)[key := Upsert(Lookup(old(groups), key), announcement)]
      ensures r == announcement
    {
      var key := JsText.Upper(groupId);
      var g := Upsert(Lookup(groups, key), announcement);
      UpsertKeepsGroupValid(Lookup(groups, key), announcement);
      groups := groups[key := g];
      r := g.announcement;
    }

    /** `POST /api/groups/:groupId/vibes`: at most one vibe per user per day. */
    method PostVibe(groupId: string, userId: string, today: string) returns (r: Reply<int>)
      requires Valid()
      modifies this
      ensures Valid()
      ensures users == old(users) && entries == old(entries)
      ensures var key := JsText.Upper(groupId);
              var outcome := Vibe(Lookup(old(groups), key), userId, today);
              match outcome
              case Success(g) => groups == old(groups)[key := g] && r == Success(g.vibes)
              case Failure(status, error) => groups == old(groups) && r == Failure(status, error)
    {
      var key := JsText.Upper(groupId);
      var before := Lookup(groups, key);
      var outcome := Vibe(before, userId, today);
      match outcome {
        case Success(g) =>
          VibeKeepsGroupValid(before, userId, today);
          groups := groups[key := g];
          r := Success(g.vibes);
        case Failure(status, error) =>
          r := Failure(status, error);
      }
    }

    /** `POST /api/entries`: the client's id is dropped and the store assigns
        one; a missing burnout flag is stored as false and missing tags as
        an empty list, as the schema's defaults say. */
    method CreateEntry(body: Entry, newId: string) returns (r: Reply<Entry>)
      modifies this
      ensures users == old(users) && groups == old(groups)
      ensures body.userId == "" ==> r == Failure(500, "Server error") && entries == old(entries)
      ensures body.userId != "" ==>
                var stored := body.(id := newId, burnoutRisk := Some(body.burnoutRisk.GetOr(false)), tags := Some(body.tags.GetOr([])));
                r == Success(stored) && entries == old(entries) + [stored]
    {
      if body.userId == "" {
        return Failure(500, "Server error");
      }
      var stored := body.(id := newId, burnoutRisk := Some(body.burnoutRisk.GetOr(false)), tags := Some(body.tags.GetOr([])));
      entries := entries + [stored];
      r := Success(stored);
    }

    /** `GET /api/entries`: every stored entry, oldest first. */
    method ListEntries() returns (r: seq<Entry>)
      ensures SortedByTime(r)
      ensures multiset(r) == multiset(entries)
    {
      r := SortByTime(entries);
    }
  }
}
