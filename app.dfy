/** The application shell: the session, the loaded entries and team, which
    screen is shown, today's check-in lookup and the entries handed to the
    team dashboard. */
module App {
  import opened Wrappers
  import opened Types
  import opened Seqs
  import Fetch
  import DataService

  datatype Tab = CheckIn | Personal | Team | Chat | Counseling

  /** A day of the local calendar (`getFullYear`, `getMonth`, `getDate`). */
  datatype CalendarDate = CalendarDate(year: int, month: int, day: int)

  /** `isSameDay(d1, d2)`: year, month and day of the month all agree, which
      is to say the two local dates are the same. */
  predicate IsSameDay(d1: CalendarDate, d2: CalendarDate)
    ensures IsSameDay(d1, d2) <==> d1 == d2
  {
    d1.year == d2.year && d1.month == d2.month && d1.day == d2.day
  }

  /** The entry that counts as today's check-in of `user`: written by that
      user on the local day `localDate` gives `today`. */
  predicate IsTodays(e: Entry, user: Option<User>, localDate: int -> CalendarDate, today: CalendarDate) {
    user.Some? && e.userId == user.value.id && IsSameDay(localDate(e.timestamp), today)
  }

  /** `todayEntry`: the first entry that is today's check-in of the user, if any. */
  function TodayEntry(es: seq<Entry>, user: Option<User>, localDate: int -> CalendarDate, today: CalendarDate): (r: Option<Entry>)
    ensures r.None? <==> forall i :: 0 <= i < |es| ==> !IsTodays(es[i], user, localDate, today)
    ensures r.Some? ==> r.value in es && IsTodays(r.value, user, localDate, today)
    ensures r.Some? ==> exists i :: 0 <= i < |es| && es[i] == r.value &&
                          forall j :: 0 <= j < i ==> !IsTodays(es[j], user, localDate, today)
    ensures user.None? ==> r.None?
  {
    FindFirst(es, (e: Entry) => IsTodays(e, user, localDate, today))
  }

  /** Adding today's entry of the user makes a check-in for today exist, and
      an earlier one, if there was one, stays the one found. */
  lemma NewEntryIsFoundToday(es: seq<Entry>, e: Entry, user: Option<User>, localDate: int -> CalendarDate, today: CalendarDate)
    requires IsTodays(e, user, localDate, today)
    ensures TodayEntry(es + [e], user, localDate, today).Some?
    ensures TodayEntry(es, user, localDate, today).Some? ==>
              TodayEntry(es + [e], user, localDate, today) == TodayEntry(es, user, localDate, today)
  {
    var p := (x: Entry) => IsTodays(x, user, localDate, today);
    assert (es + [e])[|es|] == e;
    PrefixDecidesFind(es, [e], p);
  }

  /** `entries.filter(e => teamMembers.some(m => m.id === e.userId))`. */
  function TeamEntries(es: seq<Entry>, members: seq<User>): (r: seq<Entry>)
    ensures forall e :: e in r ==> e in es && exists i :: 0 <= i < |members| && members[i].id == e.userId
    ensures IsSubsequence(r, es)
  {
    var isTeam := (e: Entry) => Any(members, (m: User) => m.id == e.userId);
    FilterIsSubsequence(es, isTeam);
    Filter(es, isTeam)
  }

  /** An entry is missing from the team view only if its author is not a member. */
  lemma TeamEntriesComplete(es: seq<Entry>, members: seq<User>, e: Entry, i: int)
    requires e in es && 0 <= i < |members| && members[i].id == e.userId
    ensures e in TeamEntries(es, members)
  {
    FilterKeeps(es, (x: Entry) => Any(members, (m: User) => m.id == x.userId), e);
  }

  /** What the shell renders. */
  datatype Screen = Loading | Auth | Main(tab: Tab)

  class AppState {
    var currentUser: Option<User>
    var loadingSession: bool
    var entries: seq<Entry>
    var activeTab: Tab
    var teamMembers: seq<User>
    var isSidebarOpen: bool

    constructor ()
      ensures currentUser.None? && loadingSession && entries == []
      ensures activeTab == CheckIn && teamMembers == [] && !isSidebarOpen
    {
      currentUser, loadingSession, entries := None, true, [];
      activeTab, teamMembers, isSidebarOpen := CheckIn, [], false;
    }

    function View(): (s: Screen)
      reads this
      ensures s == Loading <==> loadingSession
      ensures s == Auth <==> !loadingSession && currentUser.None?
      ensures s.Main? ==> s.tab == activeTab && currentUser.Some?
    {
      if loadingSession then Loading
      else if currentUser.None? then Auth
      else Main(activeTab)
    }

    /** The mount effect, given the stored session. */
    method RestoreSession(session: Option<User>)
      modifies this
      ensures !loadingSession
      ensures currentUser == if session.Some? then session else old(currentUser)
      ensures entries == old(entries) && activeTab == old(activeTab)
      ensures teamMembers == old(teamMembers) && isSidebarOpen == old(isSidebarOpen)
    {
      if session.Some? {
        currentUser := session;
      }
      loadingSession := false;
    }

    /** `loadData()`, given the group's members and the entries response. */
    method LoadData(members: seq<User>, response: Fetch.Response<seq<Entry>>)
      modifies this
      ensures currentUser.Some? && currentUser.value.groupId != "" ==>
                teamMembers == members && entries == DataService.FetchEntries(response)
      ensures !(currentUser.Some? && currentUser.value.groupId != "") ==>
                teamMembers == old(teamMembers) && entries == old(entries)
      ensures currentUser == old(currentUser) && loadingSession == old(loadingSession)
      ensures activeTab == old(activeTab) && isSidebarOpen == old(isSidebarOpen)
    {
      if currentUser.Some? && currentUser.value.groupId != "" {
        teamMembers := members;
        entries := DataService.FetchEntries(response);
      }
    }

    /** `handleNewEntry(entry)`: the entry is appended at once; the outcome
        of saving it is not used. */
    method HandleNewEntry(entry: Entry)
      modifies this
      ensures entries == old(entries) + [entry]
      ensures currentUser == old(currentUser) && loadingSession == old(loadingSession)
      ensures activeTab == old(activeTab) && teamMembers == old(teamMembers) && isSidebarOpen == old(isSidebarOpen)
    {
      entries := entries + [entry];
    }

    method HandleLogin(user: User)
      modifies this
      ensures currentUser == Some(user) && activeTab == CheckIn
      ensures loadingSession == old(loadingSession) && entries == old(entries)
      ensures teamMembers == old(teamMembers) && isSidebarOpen == old(isSidebarOpen)
    {
      currentUser := Some(user);
      activeTab := CheckIn;
    }

    method HandleLogout()
      modifies this
      ensures currentUser.None? && entries == []
      ensures loadingSession == old(loadingSession) && activeTab == old(activeTab)
      ensures teamMembers == old(teamMembers) && isSidebarOpen == old(isSidebarOpen)
    {
      currentUser := None;
      entries := [];
    }

    /** A navigation button: the tab opens and the mobile sidebar closes. */
    method HandleTabClick(tab: Tab)
      modifies this
      ensures activeTab == tab && !isSidebarOpen
      ensures currentUser == old(currentUser) && loadingSession == old(loadingSession)
      ensures entries == old(entries) && teamMembers == old(teamMembers)
    {
      activeTab := tab;
      isSidebarOpen := false;
    }

    method ToggleSidebar()
      modifies this
      ensures isSidebarOpen == !old(isSidebarOpen)
      ensures currentUser == old(currentUser) && loadingSession == old(loadingSession)
      ensures entries == old(entries) && activeTab == old(activeTab) && teamMembers == old(teamMembers)
    {
      isSidebarOpen := !isSidebarOpen;
    }

    /** The check-in's "view history" link. */
    method ViewHistory()
      modifies this
      ensures activeTab == Personal
      ensures currentUser == old(currentUser) && loadingSession == old(loadingSession)
      ensures entries == old(entries) && teamMembers == old(teamMembers) && isSidebarOpen == old(isSidebarOpen)
    {
      activeTab := Personal;
    }
  }

  /** Signing in after the session check shows the check-in tab; signing out
      returns to the sign-in page with no entries kept. */
  method LoginThenLogout(app: AppState, user: User) returns (afterLogin: Screen, afterLogout: Screen)
    requires !app.loadingSession
    modifies app
    ensures afterLogin == Main(CheckIn)
    ensures afterLogout == Auth && app.entries == []
  {
    app.HandleLogin(user);
    afterLogin := app.View();
    app.HandleLogout();
    afterLogout := app.View();
  }
}
