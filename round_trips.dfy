/** How the server's answers reach the client: each reply is sent as a JSON
    response, and the client services read it back.  These lemmas and methods
    connect the store's handlers to the dashboard's state. */
module RoundTrips {
  import opened Wrappers
  import opened Types
  import Fetch
  import Server
  import DataService
  import GroupDashboard
  import JsText

  /** The vibe endpoint's reply on the wire: `{ success, vibes }` with status
      200, or the error status with an `{ error }` body, which does not have
      the success shape. */
  function DeliverVibe(r: Server.Reply<int>): Fetch.Response<DataService.VibeJson> {
    match r
    case Success(v) => Fetch.Received(200, "", Fetch.Parsed(DataService.VibeJson(true, v)))
    case Failure(status, error) => Fetch.Received(status, error, Fetch.Malformed("no vibes field"))
  }

  /** The group read's reply on the wire: status 200 and all three fields. */
  function DeliverStatus(s: GroupStatus): Fetch.Response<DataService.GroupJson> {
    Fetch.Received(200, "", Fetch.Parsed(DataService.GroupJson(Some(s.announcement), Some(s.vibes), Some(s.userVibedToday))))
  }

  /** The client reads back exactly the status the server computed. */
  lemma GroupStatusRoundTrip(s: GroupStatus)
    ensures DataService.FetchGroupAnnouncement(DeliverStatus(s)) == s
  {
  }

  /** The client gets the stored counter for an accepted vibe and nothing for
      a rejected one. */
  lemma VibeReplyRoundTrip(r: Server.Reply<int>)
    requires r.Failure? ==> !Fetch.IsOk(r.status)
    ensures r.Success? ==> DataService.SendGroupVibe(DeliverVibe(r)) == Some(r.value)
    ensures r.Failure? ==> DataService.SendGroupVibe(DeliverVibe(r)) == None
  {
  }

  /** One member's click on the vibe button against the store: when the
      server accepts, the dashboard shows the stored counter; when it refuses
      (the daily limit), the dashboard returns to its state before the click. */
  method SendVibeThroughStore(store: Server.Store, dash: GroupDashboard.Dashboard, today: string)
      returns (reply: Option<Server.Reply<int>>)
    requires store.Valid()
    modifies store, dash
    ensures store.Valid()
    ensures reply.None? <==> old(dash.userVibedToday)
    ensures reply.None? ==> dash.vibeCount == old(dash.vibeCount) && store.groups == old(store.groups)
    ensures reply.Some? && reply.value.Success? ==>
              && dash.userVibedToday
              && dash.vibeCount == reply.value.value
              && var key := JsText.Upper(dash.currentUser.groupId);
                 key in store.groups && store.groups[key].vibes == dash.vibeCount
    ensures reply.Some? && reply.value.Failure? ==>
              && dash.vibeCount == old(dash.vibeCount)
              && dash.userVibedToday == old(dash.userVibedToday)
              && store.groups == old(store.groups)
  {
    if dash.userVibedToday {
      dash.HandleSendVibe(Fetch.Rejected("not sent"));
      return None;
    }
    var r := store.PostVibe(dash.currentUser.groupId, dash.currentUser.id, today);
    reply := Some(r);
    var key := JsText.Upper(dash.currentUser.groupId);
    Server.VibeRejectedIff(Server.Lookup(old(store.groups), key), dash.currentUser.id, today);
    dash.HandleSendVibe(DeliverVibe(r));
  }
}
