/** How a growth capture reaches the garden: the timeline hands the updated record to the
    shell's update handler, which puts it in place of the record with the same id. */
module Flows {
  import opened Options
  import opened Types
  import opened App
  import opened Timeline

  /** Because a capture keeps the record's id, replacing by id puts the updated record back
      at the place of the one it came from, one update longer, and leaves the records
      of other plants alone. */
  lemma CaptureReplacesOwnEntry(history: seq<PlantIdentification>, i: nat, file: Option<string>,
                                analyze: (string, string) -> Option<GrowthAnalysis>, newId: string, now: int)
    requires i < |history| && HandleCapture(history[i], file, analyze, newId, now).Some?
    ensures var q := HandleCapture(history[i], file, analyze, newId, now).value;
            var h := ReplaceById(history, q);
            && |h| == |history|
            && h[i] == q
            && |Updates(h[i])| == |Updates(history[i])| + 1
            && (forall j :: 0 <= j < |history| && history[j].id != history[i].id ==> h[j] == history[j])
  {
  }

  /** A growth capture on a plant of the garden, followed by the shell's update handler.
      When no file is chosen or the comparison rejects, the handler is never reached. */
  method LogGrowth(app: AppState, plant: PlantIdentification, file: Option<string>,
                   analyze: (string, string) -> Option<GrowthAnalysis>, newId: string, now: int,
                   fits: seq<PlantIdentification> -> bool)
    modifies app
    ensures HandleCapture(plant, file, analyze, newId, now).None? ==> unchanged(app)
    ensures HandleCapture(plant, file, analyze, newId, now).Some? ==>
              var q := HandleCapture(plant, file, analyze, newId, now).value;
              && app.currentScan == Some(q)
              && app.history == ReplaceById(old(app.history), q)
              && app.stored == (if fits(app.history) then Some(app.history) else old(app.stored))
              && app.error == old(app.error) && app.isAnalyzing == old(app.isAnalyzing)
              && app.language == old(app.language) && app.isOffline == old(app.isOffline)
              && BaselineImage(q) == file.value
    ensures unchanged(app) || (fits(app.history) ==> app.Persisted())
  {
    var updated := HandleCapture(plant, file, analyze, newId, now);
    if updated.Some? {
      BaselineAfterCapture(plant, file, analyze, newId, now);
      app.HandleUpdatePlant(updated.value, fits);
    }
  }
}
