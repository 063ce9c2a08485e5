/** The daily check-in form: the mood, three 1..10 sliders and a note; on
    submission the note is analysed, the entry is built and handed to the
    shell, and the result card replaces the form. */
module DailyCheckIn {
  import opened Wrappers
  import opened Types
  import Fetch
  import GeminiService

  const AlreadyCheckedIn := "You've already checked in today."

  /** The result card: the suggestion, the burnout flag and the tags. */
  datatype CheckInResult = CheckInResult(intervention: string, burnout: bool, tags: Option<seq<string>>)

  /** The card for an entry made earlier today; a missing or empty suggestion
      and a missing flag fall back to defaults. */
  function ResultOfExisting(e: Entry): (r: CheckInResult)
    ensures r.intervention == (if e.aiIntervention.Some? && e.aiIntervention.value != "" then e.aiIntervention.value else AlreadyCheckedIn)
    ensures r.burnout <==> e.burnoutRisk == Some(true)
    ensures r.tags == e.tags
  {
    CheckInResult(
      if e.aiIntervention.Some? && e.aiIntervention.value != "" then e.aiIntervention.value else AlreadyCheckedIn,
      e.burnoutRisk.GetOr(false),
      e.tags)
  }

  /** The card right after a submission. */
  function ResultOfAnalysis(a: Analysis): CheckInResult {
    CheckInResult(a.aiIntervention, a.burnoutRisk, Some(a.tags))
  }

  /** The "Offline Mode" badge is shown when the tags include it. */
  predicate ShowsOfflineBadge(r: CheckInResult) {
    r.tags.Some? && GeminiService.OfflineTag in r.tags.value
  }

  /** The stress value is highlighted above 7. */
  predicate StressHighlighted(stress: int) {
    stress > 7
  }

  /** The entry built from the form and the analysis. */
  function NewEntry(id: string, userId: string, now: int, mood: Mood, stress: int, energy: int, sleep: int,
                    note: string, a: Analysis): (e: Entry)
    ensures e.id == id && e.userId == userId && e.timestamp == now && e.mood == mood && e.note == note
    ensures e.stressLevel == stress && e.energyLevel == energy && e.sleepQuality == sleep
    ensures e.sentimentScore == Some(a.sentimentScore) && e.burnoutRisk == Some(a.burnoutRisk)
    ensures e.aiIntervention == Some(a.aiIntervention) && e.tags == Some(a.tags)
  {
    Entry(id, userId, now, mood, stress, energy, sleep, note,
          Some(a.sentimentScore), Some(a.burnoutRisk), Some(a.aiIntervention), Some(a.tags))
  }

  /** Coming back to the check-in later the same day shows the card seen right
      after submitting exactly when the suggestion was not empty. */
  lemma RevisitShowsSameResult(id: string, userId: string, now: int, mood: Mood, stress: int, energy: int,
                               sleep: int, note: string, a: Analysis)
    ensures ResultOfExisting(NewEntry(id, userId, now, mood, stress, energy, sleep, note, a)) == ResultOfAnalysis(a)
            <==> a.aiIntervention != ""
  {
  }

  /** When the analysis cannot reach the server, the card carries the offline
      badge and flags burnout exactly for a highlighted stress value. */
  lemma OfflineResultShowsBadge(stress: int, response: Fetch.Response<Analysis>)
    requires !Fetch.Succeeded(response)
    ensures ShowsOfflineBadge(ResultOfAnalysis(GeminiService.AnalyzeMoodEntry(stress, response)))
    ensures ResultOfAnalysis(GeminiService.AnalyzeMoodEntry(stress, response)).burnout <==> StressHighlighted(stress)
  {
    assert GeminiService.AnalyzeMoodEntry(stress, response).tags[0] == GeminiService.OfflineTag;
  }

  class CheckIn {
    const userId: string
    var mood: Mood
    var stress: int
    var energy: int
    var sleep: int
    var note: string
    var isSubmitting: bool
    var lastResult: Option<CheckInResult>

    /** The sliders' values stay within their 1..10 range. */
    ghost predicate Valid()
      reads this
    {
      1 <= stress <= 10 && 1 <= energy <= 10 && 1 <= sleep <= 10
    }

    constructor (userId: string)
      ensures Valid()
      ensures this.userId == userId
      ensures mood == Neutral && stress == 5 && energy == 5 && sleep == 7 && note == ""
      ensures !isSubmitting && lastResult.None?
    {
      this.userId := userId;
      mood, stress, energy, sleep, note := Neutral, 5, 5, 7, "";
      isSubmitting, lastResult := false, None;
    }

    /** The form's controls: the mood buttons, the three sliders and the note. */
    method Edit(mood': Mood, stress': int, energy': int, sleep': int, note': string)
      requires 1 <= stress' <= 10 && 1 <= energy' <= 10 && 1 <= sleep' <= 10
      modifies this
      ensures Valid()
      ensures mood == mood' && stress == stress' && energy == energy' && sleep == sleep' && note == note'
      ensures isSubmitting == old(isSubmitting) && lastResult == old(lastResult)
    {
      mood, stress, energy, sleep, note := mood', stress', energy', sleep', note';
    }

    /** The effect on `existingEntry`: an entry made earlier today shows its card. */
    method ShowExisting(existing: Option<Entry>)
      modifies this
      ensures existing.Some? ==> lastResult == Some(ResultOfExisting(existing.value))
      ensures existing.None? ==> lastResult == old(lastResult)
      ensures mood == old(mood) && stress == old(stress) && energy == old(energy) && sleep == old(sleep)
      ensures note == old(note) && isSubmitting == old(isSubmitting)
    {
      if existing.Some? {
        lastResult := Some(ResultOfExisting(existing.value));
      }
    }

    /** `handleSubmit`, given today's existing entry, the analysis response,
        the new id and the time: returns the entry passed to `onSubmit`, if any. */
    method HandleSubmit(existing: Option<Entry>, response: Fetch.Response<Analysis>, id: string, now: int)
      returns (submitted: Option<Entry>)
      requires Valid()
      modifies this
      ensures Valid()
      ensures existing.Some? ==> submitted.None? && lastResult == old(lastResult) && note == old(note) && isSubmitting == old(isSubmitting)
      ensures existing.None? ==>
                var a := GeminiService.AnalyzeMoodEntry(old(stress), response);
                && submitted == Some(NewEntry(id, userId, now, old(mood), old(stress), old(energy), old(sleep), old(note), a))
                && lastResult == Some(ResultOfAnalysis(a))
                && note == ""
                && !isSubmitting
      ensures mood == old(mood) && stress == old(stress) && energy == old(energy) && sleep == old(sleep)
    {
      if existing.Some? {
        return None;
      }
      isSubmitting := true;
      lastResult := None;
      var a := GeminiService.AnalyzeMoodEntry(stress, response);
      var entry := NewEntry(id, userId, now, mood, stress, energy, sleep, note, a);
      submitted := Some(entry);
      lastResult := Some(ResultOfAnalysis(a));
      note := "";
      isSubmitting := false;
    }
  }
}
