/** The personal dashboard: the signed-in user's own entries, the latest
    metrics, the seven-entry history chart and the recent AI suggestions. */
module PersonalDashboard {
  import opened Wrappers
  import opened Types
  import opened Seqs

  /** `entries.filter(e => e.userId === user.id)`. */
  function MyEntries(es: seq<Entry>, user: User): (r: seq<Entry>)
    ensures forall e :: e in r ==> e in es && e.userId == user.id
  {
    Filter(es, (e: Entry) => e.userId == user.id)
  }

  /** Every entry of the user is shown, in the order of the input. */
  lemma MyEntriesComplete(es: seq<Entry>, user: User, e: Entry)
    requires e in es && e.userId == user.id
    ensures e in MyEntries(es, user)
    ensures IsSubsequence(MyEntries(es, user), es)
  {
    FilterKeeps(es, (x: Entry) => x.userId == user.id, e);
    FilterIsSubsequence(es, (x: Entry) => x.userId == user.id);
  }

  /** The text before the first space: the name in the welcome line. */
  function FirstName(name: string): (r: string)
    ensures r <= name
    ensures forall i :: 0 <= i < |r| ==> r[i] != ' '
    ensures |r| < |name| ==> name[|r|] == ' '
  {
    if name == [] || name[0] == ' ' then ""
    else [name[0]] + FirstName(name[1..])
  }

  /** One point of the history chart. */
  datatype HistoryPoint = HistoryPoint(timestamp: int, stress: int, energy: int, sleep: int)

  function ToPoint(e: Entry): HistoryPoint {
    HistoryPoint(e.timestamp, e.stressLevel, e.energyLevel, e.sleepQuality)
  }

  /** `chartData`: the user's last seven entries, oldest first. */
  function ChartData(es: seq<Entry>, user: User): (r: seq<HistoryPoint>)
    ensures |r| == Min(7, |MyEntries(es, user)|)
    ensures forall i :: 0 <= i < |r| ==>
              var mine := MyEntries(es, user);
              r[i] == ToPoint(mine[|mine| - |r| + i])
  {
    Map(Last(MyEntries(es, user), 7), ToPoint)
  }

  /** `lastEntry`: the user's most recent entry, if any. */
  function LastEntry(es: seq<Entry>, user: User): (r: Option<Entry>)
    ensures r.None? <==> forall e :: e in es ==> e.userId != user.id
    ensures r.Some? ==> r.value.userId == user.id && r.value in es
    ensures r.Some? <==> MyEntries(es, user) != []
    ensures r.Some? ==> var mine := MyEntries(es, user); r.value == mine[|mine| - 1]
  {
    var mine := MyEntries(es, user);
    if mine == [] then
      assert forall e :: e in es && e.userId == user.id ==> e in mine by {
        forall e | e in es && e.userId == user.id {
          MyEntriesComplete(es, user, e);
        }
      }
      None
    else
      assert mine[|mine| - 1] in mine;
      Some(mine[|mine| - 1])
  }

  /** A metric tile: the value of the latest entry, or a dash. */
  datatype Metric = Dash | Value(n: int)

  function Stress(last: Option<Entry>): (m: Metric)
    ensures m.Dash? <==> last.None?
    ensures m.Value? ==> m.n == last.value.stressLevel
  {
    if last.Some? then Value(last.value.stressLevel) else Dash
  }

  function Energy(last: Option<Entry>): (m: Metric)
    ensures m.Dash? <==> last.None?
    ensures m.Value? ==> m.n == last.value.energyLevel
  {
    if last.Some? then Value(last.value.energyLevel) else Dash
  }

  function Sleep(last: Option<Entry>): (m: Metric)
    ensures m.Dash? <==> last.None?
    ensures m.Value? ==> m.n == last.value.sleepQuality
  {
    if last.Some? then Value(last.value.sleepQuality) else Dash
  }

  /** An entry renders a suggestion only when its intervention is present and non-empty. */
  predicate HasSuggestion(e: Entry) {
    e.aiIntervention.Some? && e.aiIntervention.value != ""
  }

  /** The "Recent Suggestions" list: the user's last three entries, newest
      first, keeping those with a suggestion. */
  function Suggestions(es: seq<Entry>, user: User): (r: seq<Entry>)
    ensures |r| <= 3
    ensures forall e :: e in r ==> HasSuggestion(e) && e.userId == user.id && e in Last(MyEntries(es, user), 3)
    ensures forall e :: e in Last(MyEntries(es, user), 3) && HasSuggestion(e) ==> e in r
    ensures IsSubsequence(r, Reverse(Last(MyEntries(es, user), 3)))
  {
    var recent := Last(MyEntries(es, user), 3);
    var r := Filter(Reverse(recent), HasSuggestion);
    forall e | e in r
      ensures e in recent
    {
      var i :| 0 <= i < |Reverse(recent)| && Reverse(recent)[i] == e;
      ReverseAt(recent, i);
    }
    forall e | e in recent && HasSuggestion(e)
      ensures e in r
    {
      var i :| 0 <= i < |recent| && recent[i] == e;
      ReverseAt(recent, |recent| - 1 - i);
      FilterKeeps(Reverse(recent), HasSuggestion, e);
    }
    FilterIsSubsequence(Reverse(recent), HasSuggestion);
    r
  }

  /** The latest entry's suggestion, when it has one, heads the list. */
  lemma LatestSuggestionFirst(es: seq<Entry>, user: User)
    requires LastEntry(es, user).Some? && HasSuggestion(LastEntry(es, user).value)
    ensures Suggestions(es, user) != [] && Suggestions(es, user)[0] == LastEntry(es, user).value
  {
    var mine := MyEntries(es, user);
    var recent := Last(mine, 3);
    ReverseAt(recent, 0);
    assert Reverse(recent)[0] == mine[|mine| - 1];
  }
}
