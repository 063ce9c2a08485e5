/** The team dashboard: the averages and the "team weather" derived from the
    team's entries, the sentiment chart, and the component state for the
    announcement board, the vibe button (an optimistic update that is undone
    when the server refuses) and the admin's AI report. */
module GroupDashboard {
  import opened Wrappers
  import opened Types
  import opened Seqs
  import Fetch
  import DataService
  import GeminiService

  // ---------------------------------------------------------------- statistics

  /** `entries.reduce((acc, e) => acc + e.stressLevel, 0)`. */
  function SumStress(es: seq<Entry>): int {
    if es == [] then 0 else SumStress(es[..|es| - 1]) + es[|es| - 1].stressLevel
  }

  /** A missing sentiment score counts as 0. */
  function Sentiment(e: Entry): real {
    e.sentimentScore.GetOr(0.0)
  }

  function SumSentiment(es: seq<Entry>): real {
    if es == [] then 0.0 else SumSentiment(es[..|es| - 1]) + Sentiment(es[|es| - 1])
  }

  function AvgStress(es: seq<Entry>): real {
    if |es| > 0 then SumStress(es) as real / |es| as real else 0.0
  }

  function AvgMood(es: seq<Entry>): real {
    if |es| > 0 then SumSentiment(es) / |es| as real else 0.0
  }

  /** `(n + 1) * x` unfolds to `n * x + x`. */
  lemma MulSucc(n: int, x: int)
    ensures (n + 1) * x == n * x + x
  {
  }

  lemma MulSuccReal(n: real, x: real)
    ensures (n + 1.0) * x == n * x + x
  {
  }

  /** Multiplication commutes with the cast to `real`. */
  lemma CastMul(n: int, x: int)
    ensures (n * x) as real == n as real * x as real
  {
  }

  /** A quotient by a positive number lies between the bounds that its
      numerator has as multiples of that number. */
  lemma DivBetween(sum: real, n: real, lo: real, hi: real)
    requires n > 0.0 && n * lo <= sum <= n * hi
    ensures lo <= sum / n <= hi
  {
    var q := sum / n;
    assert q * n == sum;
    assert (q - lo) * n == sum - n * lo;
    assert (hi - q) * n == n * hi - sum;
  }

  /** The sum of the stress levels lies between `|es|` times the least and
      `|es|` times the greatest possible level. */
  lemma {:induction false} SumStressBounds(es: seq<Entry>, lo: int, hi: int)
    requires forall i :: 0 <= i < |es| ==> lo <= es[i].stressLevel <= hi
    ensures |es| * lo <= SumStress(es) <= |es| * hi
  {
    if es != [] {
      var n := |es| - 1;
      SumStressBounds(es[..n], lo, hi);
      MulSucc(n, lo);
      MulSucc(n, hi);
    }
  }

  /** The average stress is 0 without entries and otherwise lies within the
      range of the individual levels. */
  lemma AvgStressBounds(es: seq<Entry>, lo: int, hi: int)
    requires forall i :: 0 <= i < |es| ==> lo <= es[i].stressLevel <= hi
    ensures |es| == 0 ==> AvgStress(es) == 0.0
    ensures |es| > 0 ==> lo as real <= AvgStress(es) <= hi as real
  {
    if |es| > 0 {
      SumStressBounds(es, lo, hi);
      var n := |es|;
      CastMul(n, lo);
      CastMul(n, hi);
      DivBetween(SumStress(es) as real, n as real, lo as real, hi as real);
    }
  }

  /** The same for sentiment, each missing score counting as 0. */
  lemma {:induction false} SumSentimentBounds(es: seq<Entry>, lo: real, hi: real)
    requires forall i :: 0 <= i < |es| ==> lo <= Sentiment(es[i]) <= hi
    ensures |es| as real * lo <= SumSentiment(es) <= |es| as real * hi
  {
    if es != [] {
      var n := |es| - 1;
      SumSentimentBounds(es[..n], lo, hi);
      MulSuccReal(n as real, lo);
      MulSuccReal(n as real, hi);
    }
  }

  /** The average sentiment is 0 without entries and otherwise lies within
      any range that contains 0 and every reported score. */
  lemma AvgMoodBounds(es: seq<Entry>, lo: real, hi: real)
    requires lo <= 0.0 <= hi
    requires forall i :: 0 <= i < |es| && es[i].sentimentScore.Some? ==> lo <= es[i].sentimentScore.value <= hi
    ensures |es| == 0 ==> AvgMood(es) == 0.0
    ensures |es| > 0 ==> lo <= AvgMood(es) <= hi
  {
    if |es| > 0 {
      assert forall i :: 0 <= i < |es| ==> lo <= Sentiment(es[i]) <= hi;
      SumSentimentBounds(es, lo, hi);
      DivBetween(SumSentiment(es), |es| as real, lo, hi);
    }
  }

  // ---------------------------------------------------------------- weather

  datatype Weather = Stormy | Rainy | Cloudy | Sunny

  /** `getTeamWeather()`: the first rule that applies. */
  function TeamWeather(avgStress: real, avgMood: real): (w: Weather)
    ensures w == Stormy <==> avgStress > 7.0
    ensures w == Rainy <==> avgStress <= 7.0 && avgMood < -0.3
    ensures w == Cloudy <==> avgStress <= 7.0 && -0.3 <= avgMood < 0.2
    ensures w == Sunny <==> avgStress <= 7.0 && avgMood >= 0.2
  {
    if avgStress > 7.0 then Stormy
    else if avgMood < -0.3 then Rainy
    else if avgMood < 0.2 then Cloudy
    else Sunny
  }

  /** The weather is stormy only if some entry itself reports stress above 7. */
  lemma StormyNeedsStressedEntry(es: seq<Entry>)
    requires TeamWeather(AvgStress(es), AvgMood(es)) == Stormy
    ensures exists i :: 0 <= i < |es| && es[i].stressLevel > 7
  {
    if forall i :: 0 <= i < |es| ==> es[i].stressLevel <= 7 {
      var lo := if es == [] then 0 else Lowest(es);
      AvgStressBounds(es, lo, 7);
    }
  }

  /** A lower bound of the stress levels. */
  function Lowest(es: seq<Entry>): (m: int)
    requires es != []
    ensures forall i :: 0 <= i < |es| ==> m <= es[i].stressLevel
  {
    if |es| == 1 then es[0].stressLevel
    else
      var rest := Lowest(es[1..]);
      assert forall i :: 1 <= i < |es| ==> es[i] == es[1..][i - 1];
      if es[0].stressLevel <= rest then es[0].stressLevel else rest
  }

  // ---------------------------------------------------------------- charts

  datatype ChartPoint = ChartPoint(timestamp: int, stress: int, energy: int, sentiment: real)

  /** The sentiment in [-1, 1] drawn on the chart's 0..10 scale. */
  function Scaled(score: real): real {
    score * 5.0 + 5.0
  }

  function ToPoint(e: Entry): ChartPoint {
    ChartPoint(e.timestamp, e.stressLevel, e.energyLevel, Scaled(Sentiment(e)))
  }

  /** `chartData`: the last 20 entries, in order, one point each. */
  function ChartData(es: seq<Entry>): (r: seq<ChartPoint>)
    ensures |r| == Min(20, |es|)
    ensures forall i :: 0 <= i < |r| ==> r[i] == ToPoint(es[|es| - |r| + i])
  {
    Map(Last(es, 20), ToPoint)
  }

  /** Scores in [-1, 1] land on [0, 10], and the scale keeps their order. */
  lemma ScaledRange(score: real, other: real)
    ensures -1.0 <= score <= 1.0 ==> 0.0 <= Scaled(score) <= 10.0
    ensures score < other ==> Scaled(score) < Scaled(other)
  {
  }

  datatype BarColour = Green | Red | Grey

  function Colour(sentiment: real): BarColour {
    if sentiment > 5.0 then Green else if sentiment < 4.0 then Red else Grey
  }

  /** A bar is green exactly for a positive score and red exactly for a score below -0.2. */
  lemma ColourOfScore(score: real)
    ensures Colour(Scaled(score)) == Green <==> score > 0.0
    ensures Colour(Scaled(score)) == Red <==> score < -0.2
    ensures Colour(Scaled(score)) == Grey <==> -0.2 <= score <= 0.0
  {
  }

  /** The report is generated on first load only for an admin who has none and has entries. */
  predicate ShouldAutoReport(isAdmin: bool, analysis: Option<GroupAnalysis>, es: seq<Entry>) {
    isAdmin && analysis.None? && |es| > 0
  }

  // ---------------------------------------------------------------- component state

  class Dashboard {
    const currentUser: User
    var analysis: Option<GroupAnalysis>
    var loading: bool
    var announcement: string
    var vibeCount: int
    var userVibedToday: bool
    var isEditingAnnouncement: bool
    var isSavingAnnouncement: bool

    constructor (user: User)
      ensures currentUser == user
      ensures analysis.None? && !loading
      ensures announcement == "" && vibeCount == 0 && !userVibedToday
      ensures !isEditingAnnouncement && !isSavingAnnouncement
    {
      currentUser := user;
      analysis, loading := None, false;
      announcement, vibeCount, userVibedToday := "", 0, false;
      isEditingAnnouncement, isSavingAnnouncement := false, false;
    }

    predicate IsAdmin()
      reads this
    {
      currentUser.role == Admin
    }

    /** `loadGroupData()`, given the group read's response. */
    method LoadGroupData(response: Fetch.Response<DataService.GroupJson>)
      modifies this
      ensures currentUser.groupId == "" ==> unchanged(this)
      ensures currentUser.groupId != "" ==>
                var data := DataService.FetchGroupAnnouncement(response);
                announcement == data.announcement && vibeCount == data.vibes && userVibedToday == data.userVibedToday
      ensures analysis == old(analysis) && loading == old(loading)
      ensures isEditingAnnouncement == old(isEditingAnnouncement) && isSavingAnnouncement == old(isSavingAnnouncement)
    {
      if currentUser.groupId != "" {
        var data := DataService.FetchGroupAnnouncement(response);
        announcement := data.announcement;
        vibeCount := data.vibes;
        userVibedToday := data.userVibedToday;
      }
    }

    /** The admin edits the announcement text. */
    method EditAnnouncement(text: string)
      modifies this
      ensures announcement == text
      ensures vibeCount == old(vibeCount) && userVibedToday == old(userVibedToday)
      ensures analysis == old(analysis) && loading == old(loading)
      ensures isEditingAnnouncement == old(isEditingAnnouncement) && isSavingAnnouncement == old(isSavingAnnouncement)
    {
      announcement := text;
    }

    /** `saveAnnouncement()`: the outcome of the update is not used; editing ends either way. */
    method SaveAnnouncement()
      modifies this
      ensures !isSavingAnnouncement && !isEditingAnnouncement
      ensures announcement == old(announcement)
      ensures vibeCount == old(vibeCount) && userVibedToday == old(userVibedToday)
      ensures analysis == old(analysis) && loading == old(loading)
    {
      isSavingAnnouncement := true;
      isSavingAnnouncement := false;
      isEditingAnnouncement := false;
    }

    /** The synchronous half of `handleSendVibe`: nothing happens if the user
        already sent a vibe today; otherwise the button locks and the counter
        goes up before the server is asked. */
    method BeginSendVibe() returns (sent: bool)
      modifies this
      ensures sent == !old(userVibedToday)
      ensures sent ==> userVibedToday && vibeCount == old(vibeCount) + 1
      ensures !sent ==> userVibedToday == old(userVibedToday) && vibeCount == old(vibeCount)
      ensures announcement == old(announcement) && analysis == old(analysis) && loading == old(loading)
      ensures isEditingAnnouncement == old(isEditingAnnouncement) && isSavingAnnouncement == old(isSavingAnnouncement)
    {
      if userVibedToday {
        return false;
      }
      userVibedToday := true;
      vibeCount := vibeCount + 1;
      sent := true;
    }

    /** The continuation of `handleSendVibe` once `sendGroupVibe` answers: the
        server's count replaces the optimistic one, or the update is undone. */
    method FinishSendVibe(newCount: Option<int>)
      modifies this
      ensures newCount.Some? ==> vibeCount == newCount.value && userVibedToday == old(userVibedToday)
      ensures newCount.None? ==> !userVibedToday && vibeCount == old(vibeCount) - 1
      ensures announcement == old(announcement) && analysis == old(analysis) && loading == old(loading)
      ensures isEditingAnnouncement == old(isEditingAnnouncement) && isSavingAnnouncement == old(isSavingAnnouncement)
    {
      if newCount.Some? {
        vibeCount := newCount.value;
      } else {
        userVibedToday := false;
        vibeCount := vibeCount - 1;
      }
    }

    /** `handleSendVibe()`, given the vibe endpoint's response: a failed call
        leaves the state exactly as it was before the click. */
    method HandleSendVibe(response: Fetch.Response<DataService.VibeJson>)
      modifies this
      ensures old(userVibedToday) ==> vibeCount == old(vibeCount) && userVibedToday
      ensures !old(userVibedToday) && Fetch.Succeeded(response) ==>
                userVibedToday && vibeCount == response.json.value.vibes
      ensures !old(userVibedToday) && !Fetch.Succeeded(response) ==>
                vibeCount == old(vibeCount) && userVibedToday == old(userVibedToday)
      ensures announcement == old(announcement) && analysis == old(analysis) && loading == old(loading)
      ensures isEditingAnnouncement == old(isEditingAnnouncement) && isSavingAnnouncement == old(isSavingAnnouncement)
    {
      var sent := BeginSendVibe();
      if sent {
        var newCount := DataService.SendGroupVibe(response);
        FinishSendVibe(newCount);
      }
    }

    /** `handleGenerateReport()`, given the report endpoint's response and the time. */
    method HandleGenerateReport(response: Fetch.Response<GroupAnalysis>, now: string)
      modifies this
      ensures analysis == Some(GeminiService.GenerateGroupReport(response, now))
      ensures !loading
      ensures announcement == old(announcement) && vibeCount == old(vibeCount) && userVibedToday == old(userVibedToday)
      ensures isEditingAnnouncement == old(isEditingAnnouncement) && isSavingAnnouncement == old(isSavingAnnouncement)
    {
      loading := true;
      analysis := Some(GeminiService.GenerateGroupReport(response, now));
      loading := false;
    }

    /** The first-load effect: only an admin with entries and no report gets one. */
    method AutoReport(entries: seq<Entry>, response: Fetch.Response<GroupAnalysis>, now: string)
      modifies this
      ensures ShouldAutoReport(IsAdmin(), old(analysis), entries) ==>
                analysis == Some(GeminiService.GenerateGroupReport(response, now)) && !loading
      ensures !ShouldAutoReport(IsAdmin(), old(analysis), entries) ==>
                analysis == old(analysis) && loading == old(loading)
      ensures announcement == old(announcement) && vibeCount == old(vibeCount) && userVibedToday == old(userVibedToday)
      ensures isEditingAnnouncement == old(isEditingAnnouncement) && isSavingAnnouncement == old(isSavingAnnouncement)
    {
      if ShouldAutoReport(IsAdmin(), analysis, entries) {
        HandleGenerateReport(response, now);
      }
    }
  }
}
