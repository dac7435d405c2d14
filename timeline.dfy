/** The growth timeline of one plant: which photo a new one is compared with, how a
    growth update is built and appended, and how an update's badge is coloured. */
module Timeline {
  import opened Options
  import opened Types

  /** What the growth comparison reports for a pair of photos. */
  datatype GrowthAnalysis = GrowthAnalysis(analysis: string, status: string)

  /** A plant's timeline updates; a record without the field has none. */
  function Updates(p: PlantIdentification): (r: seq<PlantUpdate>)
    ensures p.updates.None? ==> r == []
    ensures p.updates.Some? ==> r == p.updates.value
  {
    Entries(p.updates)
  }

  /** Every photo of the plant in the order taken: the original, then one per update. */
  function Photos(p: PlantIdentification): (r: seq<string>)
    ensures |r| == |Updates(p)| + 1
    ensures r[0] == p.imageUrl
    ensures forall i :: 0 <= i < |Updates(p)| ==> r[i + 1] == Updates(p)[i].imageUrl
  {
    [p.imageUrl] + seq(|Updates(p)|, i requires 0 <= i < |Updates(p)| => Updates(p)[i].imageUrl)
  }

  /** The photo a new one is compared with: the last update's, or the original when there is none. */
  function BaselineImage(p: PlantIdentification): (image: string)
    ensures image == Photos(p)[|Photos(p)| - 1]
  {
    var u := Updates(p);
    if |u| > 0 then u[|u| - 1].imageUrl else p.imageUrl
  }

  /** The record with `u` appended to its updates, every other field as it was. */
  function AddUpdate(p: PlantIdentification, u: PlantUpdate): (r: PlantIdentification)
    ensures Updates(r) == Updates(p) + [u]
    ensures r.(updates := p.updates) == p
  {
    p.(updates := Some(Updates(p) + [u]))
  }

  /** The photo trail of the updated record is the old trail followed by the new photo. */
  lemma {:induction false} AddUpdateExtendsPhotos(p: PlantIdentification, u: PlantUpdate)
    ensures Photos(AddUpdate(p, u)) == Photos(p) + [u.imageUrl]
  {
  }

  /** A new update takes the captured photo and the analysis of it against the baseline.
      `file` is the captured photo as a data URL, or None when no file was chosen;
      `analyze` stands for the AI growth comparison of (baseline, new photo), None when
      it rejects (no API key, a failed request), in which case nothing is passed on;
      `newId` and `now` are the fresh identifier and the clock reading. */
  function HandleCapture(p: PlantIdentification, file: Option<string>,
                         analyze: (string, string) -> Option<GrowthAnalysis>,
                         newId: string, now: int): (r: Option<PlantIdentification>)
    ensures r.Some? <==> file.Some? && analyze(BaselineImage(p), file.value).Some?
    ensures r.Some? ==>
              var n := |Updates(p)|;
              var a := analyze(BaselineImage(p), file.value).value;
              && |Updates(r.value)| == n + 1
              && Updates(r.value)[..n] == Updates(p)
              && Updates(r.value)[n] == PlantUpdate(newId, now, file.value, a.analysis, a.status)
              && r.value.(updates := p.updates) == p
  {
    match file
    case None => None
    case Some(newImage) =>
      match analyze(BaselineImage(p), newImage)
      case None => None
      case Some(analysis) =>
        var newUpdate := PlantUpdate(newId, now, newImage, analysis.analysis, analysis.status);
        Some(AddUpdate(p, newUpdate))
  }

  /** After a capture, the next capture is compared with the photo just taken. */
  lemma BaselineAfterCapture(p: PlantIdentification, file: Option<string>,
                             analyze: (string, string) -> Option<GrowthAnalysis>, newId: string, now: int)
    requires file.Some? && analyze(BaselineImage(p), file.value).Some?
    ensures HandleCapture(p, file, analyze, newId, now).Some?
    ensures BaselineImage(HandleCapture(p, file, analyze, newId, now).value) == file.value
  {
  }

  // ---------------------------------------------------------------- the status badge

  /** `t` occurs in `s` starting at index `i`. */
  predicate OccursAt(s: string, t: string, i: int)
  {
    0 <= i <= |s| - |t| && s[i..i + |t|] == t
  }

  /** JavaScript's `s.includes(t)`: `t` occurs in `s` as a contiguous piece. */
  function Includes(s: string, t: string): (b: bool)
    ensures b <==> exists i :: OccursAt(s, t, i)
    decreases |s|
  {
    if |s| < |t| then false
    else if s[..|t|] == t then assert OccursAt(s, t, 0); true
    else
      var b := Includes(s[1..], t);
      assert b ==> exists i :: OccursAt(s, t, i) by {
        if b {
          var j :| OccursAt(s[1..], t, j);
          assert s[j + 1..j + 1 + |t|] == s[1..][j..j + |t|];
          assert OccursAt(s, t, j + 1);
        }
      }
      assert (exists i :: OccursAt(s, t, i)) ==> b by {
        if exists i :: OccursAt(s, t, i) {
          var i :| OccursAt(s, t, i);
          assert i != 0;
          assert s[1..][i - 1..i - 1 + |t|] == s[i..i + |t|];
          assert OccursAt(s[1..], t, i - 1);
        }
      }
      b
  }

  /** An update's badge is drawn in the healthy colour. */
  function HealthyBadge(u: PlantUpdate): (b: bool)
    ensures b <==> exists i :: OccursAt(u.healthStatus, "Healthy", i)
  {
    Includes(u.healthStatus, "Healthy")
  }

  /** A string without the letter `H` never contains "Healthy". */
  lemma {:induction false} NoCapitalHNoHealthy(s: string)
    requires 'H' !in s
    ensures !Includes(s, "Healthy")
  {
    forall i | 0 <= i <= |s| - 7
      ensures !OccursAt(s, "Healthy", i)
    {
      assert s[i] in s;
      assert s[i..i + 7][0] == s[i];
    }
  }

  /** Among the status enumeration's values only "Healthy" gets the healthy badge; in
      particular the growth comparison's fallback status "Unknown" does not. */
  lemma HealthyBadgeOnStatusLabels(s: PlantHealthStatus, u: PlantUpdate)
    requires u.healthStatus == StatusLabel(s)
    ensures HealthyBadge(u) <==> s == Healthy
  {
    if s == Healthy {
      assert OccursAt(u.healthStatus, "Healthy", 0);
    } else {
      NoCapitalHNoHealthy(u.healthStatus);
    }
  }

  /** The statuses the growth comparison is asked for ("Improving", "Declining") and its
      fallback ("Unknown") never get the healthy badge, while a status such as
      "Not Healthy" does, since the test looks for the piece anywhere in the string. */
  lemma ComparisonStatusBadges(u: PlantUpdate)
    ensures u.healthStatus in ["Improving", "Declining", "Unknown"] ==> !HealthyBadge(u)
    ensures u.healthStatus == "Not Healthy" ==> HealthyBadge(u)
  {
    if u.healthStatus in ["Improving", "Declining", "Unknown"] {
      NoCapitalHNoHealthy(u.healthStatus);
    }
    if u.healthStatus == "Not Healthy" {
      assert OccursAt(u.healthStatus, "Healthy", 4);
    }
  }
}
