/** The garden history kept by the application shell: the list computations it
    performs (prepend-and-cap, replace-by-id, the recent view, the language toggle)
    as functions, and the shell's state with its scan and update handlers as a class. */
module App {
  import opened Options
  import opened Types

  /** The name of the browser storage slot that holds the history. */
  const StorageKey: string := "botanix_nature_v3"

  /** The history keeps at most this many records. */
  const MaxHistory: nat := 50

  /** The home view shows at most this many records. */
  const RecentCount: nat := 3

  const OfflineMessage: string := "Cannot identify plants while offline. Check connection."
  const FailureMessage: string := "Identification failed. Please try a clearer photo."

  function Min(a: int, b: int): int
  {
    if a <= b then a else b
  }

  /** The first `n` elements of `s`, or all of `s` when it is shorter (JavaScript's `slice(0, n)`). */
  function Take<T>(s: seq<T>, n: nat): (r: seq<T>)
    ensures |r| == Min(|s|, n)
    ensures r == s[..|r|]
  {
    if |s| <= n then s else s[..n]
  }

  function Reversed<T>(s: seq<T>): (r: seq<T>)
    ensures |r| == |s|
    ensures forall i :: 0 <= i < |s| ==> r[i] == s[|s| - 1 - i]
  {
    if s == [] then [] else Reversed(s[1..]) + [s[0]]
  }

  // ---------------------------------------------------------------- history as a value

  /** A new identification goes in front of the history, which is then cut to its first 50 records. */
  function Prepend(result: PlantIdentification, history: seq<PlantIdentification>): (r: seq<PlantIdentification>)
    ensures |r| == Min(|history| + 1, MaxHistory)
    ensures r[0] == result
    ensures r[1..] == history[..|r| - 1]
  {
    Take([result] + history, MaxHistory)
  }

  /** A full history loses exactly its oldest record to a new scan. */
  lemma PrependFullDropsOldest(result: PlantIdentification, history: seq<PlantIdentification>)
    requires |history| == MaxHistory
    ensures Prepend(result, history) == [result] + history[..MaxHistory - 1]
  {
  }

  /** The history after scanning `results` in order, starting from `history`. */
  function ScanAll(results: seq<PlantIdentification>, history: seq<PlantIdentification>): seq<PlantIdentification>
    decreases |results|
  {
    if results == [] then history else ScanAll(results[1..], Prepend(results[0], history))
  }

  lemma {:induction false} TakeAfterTake<T>(a: seq<T>, b: seq<T>, n: nat)
    ensures Take(a + Take(b, n), n) == Take(a + b, n)
  {
  }

  /** Scanning several plants into a history within the cap leaves the newest 50 records
      of the scans followed by the old history, newest first. */
  lemma {:induction false} ScanAllKeepsNewest(results: seq<PlantIdentification>, history: seq<PlantIdentification>)
    requires |history| <= MaxHistory
    ensures ScanAll(results, history) == Take(Reversed(results) + history, MaxHistory)
    decreases |results|
  {
    if results == [] {
      assert Reversed(results) + history == history;
    } else {
      var first, rest := results[0], results[1..];
      ScanAllKeepsNewest(rest, Prepend(first, history));
      TakeAfterTake(Reversed(rest), [first] + history, MaxHistory);
      assert Reversed(results) == Reversed(rest) + [first];
      assert Reversed(results) + history == Reversed(rest) + ([first] + history);
    }
  }

  /** Fifty-one scans into an empty garden leave the last fifty, the first one evicted. */
  lemma FiftyOneScansEvictFirst(results: seq<PlantIdentification>)
    requires |results| == MaxHistory + 1
    ensures ScanAll(results, []) == Reversed(results[1..])
  {
    ScanAllKeepsNewest(results, []);
    var all := Reversed(results) + [];
    var kept := Take(all, MaxHistory);
    assert |kept| == MaxHistory;
    forall i | 0 <= i < MaxHistory
      ensures kept[i] == Reversed(results[1..])[i]
    {
    }
  }

  /** Every record that has the updated record's id is replaced by it; the others stay. */
  function ReplaceById(history: seq<PlantIdentification>, updated: PlantIdentification): (r: seq<PlantIdentification>)
    ensures |r| == |history|
    ensures forall i :: 0 <= i < |history| && history[i].id == updated.id ==> r[i] == updated
    ensures forall i :: 0 <= i < |history| && history[i].id != updated.id ==> r[i] == history[i]
  {
    if history == [] then []
    else [if history[0].id == updated.id then updated else history[0]] + ReplaceById(history[1..], updated)
  }

  /** When no record has the updated record's id, the history is unchanged. */
  lemma ReplaceByIdNoMatch(history: seq<PlantIdentification>, updated: PlantIdentification)
    requires forall i :: 0 <= i < |history| ==> history[i].id != updated.id
    ensures ReplaceById(history, updated) == history
  {
  }

  /** Applying the same update twice is the same as applying it once. */
  lemma ReplaceByIdIdempotent(history: seq<PlantIdentification>, updated: PlantIdentification)
    ensures ReplaceById(ReplaceById(history, updated), updated) == ReplaceById(history, updated)
  {
  }

  /** The home view: the first (newest) three records, or all of them when there are fewer. */
  function RecentView(history: seq<PlantIdentification>): (r: seq<PlantIdentification>)
    ensures |r| == Min(RecentCount, |history|)
    ensures r == history[..|r|]
  {
    Take(history, RecentCount)
  }

  /** The language button: each press gives the other language. */
  function Toggle(l: Language): (r: Language)
    ensures r != l
  {
    if l == En then Bn else En
  }

  lemma ToggleTwice(l: Language)
    ensures Toggle(Toggle(l)) == l
  {
  }

  // ---------------------------------------------------------------- the shell's state

  /** What identifying one photo gives: a new record, or a failure. */
  datatype IdentifyOutcome = Identified(record: PlantIdentification) | Failed

  /** The shell's state fields, and the storage slot named by StorageKey. */
  class AppState {
    var history: seq<PlantIdentification>
    var currentScan: Option<PlantIdentification>
    var isAnalyzing: bool
    var language: Language
    var error: Option<string>
    var isOffline: bool
    /** The storage slot: None while nothing is stored under the key. */
    var stored: Option<seq<PlantIdentification>>

    /** The in-memory history is what the slot holds (an empty slot reads as an empty history). */
    ghost predicate Persisted()
      reads this
    {
      history == Entries(stored)
    }

    /** First render followed by the mount effect: the saved history, if any, is loaded. */
    constructor (saved: Option<seq<PlantIdentification>>, online: bool)
      ensures history == Entries(saved) && stored == saved
      ensures currentScan == None && !isAnalyzing && language == En && error == None
      ensures isOffline == !online
      ensures Persisted()
    {
      history := [];
      currentScan := None;
      isAnalyzing := false;
      language := En;
      error := None;
      isOffline := !online;
      stored := saved;
      if saved.Some? {
        history := saved.value;
      }
    }

    /** Replace the history and write the whole of it to the slot. `fits` says whether the
        browser's storage accepts a history; when it does not, the write throws after the
        in-memory history has already been replaced, and the slot keeps its old contents. */
    method SaveHistory(updated: seq<PlantIdentification>, fits: seq<PlantIdentification> -> bool)
      modifies this`history, this`stored
      ensures history == updated
      ensures stored == if fits(updated) then Some(updated) else old(stored)
      ensures fits(updated) ==> Persisted()
    {
      history := updated;
      if fits(updated) {
        stored := Some(updated);
      }
    }

    /** Identify a photo (`identify` stands for the AI service) and record the result. A
        refused storage write lands in the same handler as a failed identification. */
    method HandleScan(image: string, identify: (string, Language) -> IdentifyOutcome,
                      fits: seq<PlantIdentification> -> bool)
      modifies this
      ensures language == old(language) && isOffline == old(isOffline)
      // offline: nothing but the error changes
      ensures old(isOffline) ==>
                && history == old(history) && stored == old(stored)
                && currentScan == old(currentScan) && isAnalyzing == old(isAnalyzing)
                && error == Some(OfflineMessage)
      // online: the spinner is off again, however the call ends
      ensures !old(isOffline) ==> !isAnalyzing
      ensures !old(isOffline) && identify(image, old(language)).Identified? ==>
                var record := identify(image, old(language)).record;
                && currentScan == Some(record)
                && history == Prepend(record, old(history))
                && (fits(history) ==> stored == Some(history) && error == None)
                && (!fits(history) ==> stored == old(stored) && error == Some(FailureMessage))
      ensures !old(isOffline) && identify(image, old(language)).Failed? ==>
                && history == old(history) && stored == old(stored)
                && currentScan == old(currentScan)
                && error == Some(FailureMessage)
      // the history and the slot part only when the slot refuses the new history
      ensures old(Persisted()) ==> Persisted() || (stored == old(stored) && !fits(history))
      ensures old(|history|) <= MaxHistory ==> |history| <= MaxHistory
    {
      if isOffline {
        error := Some(OfflineMessage);
        return;
      }
      isAnalyzing := true;
      error := None;
      var outcome := identify(image, language);
      match outcome {
        case Identified(result) =>
          currentScan := Some(result);
          var updated := Prepend(result, history);
          SaveHistory(updated, fits);
          if !fits(updated) {
            error := Some(FailureMessage);
          }
        case Failed =>
          error := Some(FailureMessage);
      }
      isAnalyzing := false;
    }

    /** Put an updated record in the place of every record with its id, and show it. A
        refused storage write escapes the handler, leaving the slot as it was. */
    method HandleUpdatePlant(updatedPlant: PlantIdentification, fits: seq<PlantIdentification> -> bool)
      modifies this
      ensures currentScan == Some(updatedPlant)
      ensures history == ReplaceById(old(history), updatedPlant)
      ensures stored == if fits(history) then Some(history) else old(stored)
      ensures fits(history) ==> Persisted()
      ensures |history| == old(|history|)
      ensures isAnalyzing == old(isAnalyzing) && language == old(language)
      ensures error == old(error) && isOffline == old(isOffline)
    {
      currentScan := Some(updatedPlant);
      var newHistory := ReplaceById(history, updatedPlant);
      SaveHistory(newHistory, fits);
    }

    /** The language button. */
    method ToggleLanguage()
      modifies this`language
      ensures language == Toggle(old(language))
    {
      language := Toggle(language);
    }
  }
}
