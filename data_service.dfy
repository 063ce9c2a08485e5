/** The client's data service: each call turns the server's response, or the
    failure to get one, into a value or a default; none of them throws. */
module DataService {
  import opened Wrappers
  import opened Types
  import opened Fetch

  /** `fetchEntries()`: the entries, or none on any failure. */
  function FetchEntries(response: Response<seq<Entry>>): (r: seq<Entry>)
    ensures Succeeded(response) ==> r == response.json.value
    ensures !Succeeded(response) ==> r == []
  {
    if Succeeded(response) then response.json.value else []
  }

  /** `createEntry(entry)`: the stored entry, or null on any failure. */
  function CreateEntry(response: Response<Entry>): (r: Option<Entry>)
    ensures r.Some? <==> Succeeded(response)
    ensures r.Some? ==> r.value == response.json.value
  {
    if Succeeded(response) then Some(response.json.value) else None
  }

  /** The group read's JSON, where any field may be missing. */
  datatype GroupJson = GroupJson(announcement: Option<string>, vibes: Option<int>, userVibedToday: Option<bool>)

  const NoGroupInfo := GroupStatus("", 0, false)

  /** `fetchGroupAnnouncement(groupId, userId)`: the three fields, each
      defaulted when missing or falsy; all defaults on any failure. */
  function FetchGroupAnnouncement(response: Response<GroupJson>): (r: GroupStatus)
    ensures !Succeeded(response) ==> r == GroupStatus("", 0, false)
    ensures Succeeded(response) ==>
              var data := response.json.value;
              && (data.announcement.Some? ==> r.announcement == data.announcement.value)
              && (data.announcement.None? ==> r.announcement == "")
              && (data.vibes.Some? ==> r.vibes == data.vibes.value)
              && (data.vibes.None? ==> r.vibes == 0)
              && (r.userVibedToday <==> data.userVibedToday == Some(true))
  {
    if !Succeeded(response) then NoGroupInfo
    else
      var data := response.json.value;
      GroupStatus(data.announcement.GetOr(""), data.vibes.GetOr(0), data.userVibedToday.GetOr(false))
  }

  /** `updateGroupAnnouncement(groupId, text)`: whether the server answered OK. */
  function UpdateGroupAnnouncement<T>(response: Response<T>): (ok: bool)
    ensures ok <==> response.Received? && IsOk(response.status)
  {
    match response
    case Rejected(_) => false
    case Received(status, _, _) => IsOk(status)
  }

  /** The vibe endpoint's JSON on success. */
  datatype VibeJson = VibeJson(success: bool, vibes: int)

  /** `sendGroupVibe(groupId, userId)`: the new counter, or null on any failure. */
  function SendGroupVibe(response: Response<VibeJson>): (r: Option<int>)
    ensures r.Some? <==> Succeeded(response)
    ensures r.Some? ==> r.value == response.json.value.vibes
  {
    if Succeeded(response) then Some(response.json.value.vibes) else None
  }
}
