/** The bottle processor (Backend/app/processor.py): the bottle id taken from
    a blob name, the PASS/FAIL verdict, the timeout fallback, and what
    processing one complete bottle does to the global counter, the pairing
    barrier, the live feed and the stored error reports.

    The two classifier calls, the image downloads and their concurrency are
    inputs: `PredictOutcome` says what the parallel prediction came to, and
    the downloaded bytes are passed in. */
module Processor {
  import opened Text
  import opened AnalysisTypes
  import ErrorReport

  /** `_get_bottle_id`: drop everything from the last dot, then remove every
      `_tap` if there is one, or else every `_level`. */
  function GetBottleId(blobName: string): (id: string)
    ensures |id| <= |blobName|
  {
    StemId(StripExtension(blobName))
  }

  /** The suffix rule applied to a name without its extension. */
  function StemId(nameWithoutExt: string): (id: string)
    ensures |id| <= |nameWithoutExt|
    ensures !Contains(nameWithoutExt, "_tap") && !Contains(nameWithoutExt, "_level") ==> id == nameWithoutExt
  {
    if Contains(nameWithoutExt, "_tap") then ReplaceAll(nameWithoutExt, "_tap", "")
    else if Contains(nameWithoutExt, "_level") then ReplaceAll(nameWithoutExt, "_level", "")
    else nameWithoutExt
  }

  /** A bottle stem the id rule gives back unchanged: no dot, no `_tap`, no
      `_level`. */
  predicate CleanStem(stem: string)
  {
    '.' !in stem && !Contains(stem, "_tap") && !Contains(stem, "_level")
  }

  lemma SuffixFacts()
    ensures UnderscoreLed("_tap") && UnderscoreLed("_level")
    ensures Contains("_tap", "_tap") && Contains("_level", "_level")
    ensures !Contains("_level", "_tap")
  {
    assert StartsWith("_tap", "_tap") && StartsWith("_level", "_level");
    assert "_level"[..4][1] == 'l';
    assert "_level"[1..] == "level";
    NoUnderscoreNoMatch("level", "_tap");
  }

  lemma TapStemId(stem: string)
    requires CleanStem(stem)
    ensures StemId(stem + "_tap") == stem
  {
    SuffixFacts();
    ContainsSplit(stem, "_tap", "_tap");
    RemoveSuffixPattern(stem, "_tap");
  }

  lemma LevelStemId(stem: string)
    requires CleanStem(stem)
    ensures StemId(stem + "_level") == stem
  {
    SuffixFacts();
    ContainsSplit(stem, "_level", "_tap");
    ContainsSplit(stem, "_level", "_level");
    RemoveSuffixPattern(stem, "_level");
  }

  /** The tap image and the level image of one bottle map to the same id, the
      stem, whatever their extensions; so does the stem with an extension only. */
  lemma PairedNamesShareId(stem: string, tapExt: string, levelExt: string)
    requires CleanStem(stem) && '.' !in tapExt && '.' !in levelExt
    ensures GetBottleId(stem + "_tap" + "." + tapExt) == stem
    ensures GetBottleId(stem + "_level" + "." + levelExt) == stem
    ensures GetBottleId(stem + "." + tapExt) == stem
  {
    StripOneExtension(stem + "_tap", tapExt);
    StripOneExtension(stem + "_level", levelExt);
    StripOneExtension(stem, tapExt);
    TapStemId(stem);
    LevelStemId(stem);
  }

  /** The stem of the documented example holds neither suffix. */
  lemma ExampleStemClean()
    ensures !Contains("bottle" + "_000013", "_tap")
    ensures !Contains("bottle" + "_000013", "_level")
  {
    assert "_000013"[1..] == "000013";
    assert !StartsWith("_000013", "_tap") by { assert "_000013"[..4][1] == '0'; }
    assert !StartsWith("_000013", "_level") by { assert "_000013"[..6][1] == '0'; }
    NoUnderscoreNoMatch("000013", "_tap");
    NoUnderscoreNoMatch("000013", "_level");
    NoUnderscoreNoMatch("bottle", "_tap");
    NoUnderscoreNoMatch("bottle", "_level");
    assert UnderscoreLed("_tap") && UnderscoreLed("_level");
    ContainsSplit("bottle", "_000013", "_tap");
    ContainsSplit("bottle", "_000013", "_level");
  }

  /** The documented example: `bottle_000013_tap.jpg` and
      `bottle_000013_level.jpg` both map to `bottle_000013`. */
  lemma DocExamples(stem: string)
    requires stem == "bottle_000013"
    ensures GetBottleId(stem + "_tap" + "." + "jpg") == stem
    ensures GetBottleId(stem + "_level" + "." + "jpg") == stem
  {
    ExampleStemClean();
    assert stem == "bottle" + "_000013";
    PairedNamesShareId(stem, "jpg", "jpg");
  }

  /** `x_tape` holds `_tap`, and removing it leaves `xe`. */
  lemma TapeStem(stem: string)
    requires stem == "x_tape"
    ensures Contains(stem, "_tap")
    ensures ReplaceAll(stem, "_tap", "") == "xe"
  {
    assert UnderscoreLed("_tap");
    assert stem == "x" + "_tape";
    assert StartsWith("_tape", "_tap");
    assert ReplaceAll("_tape", "_tap", "") == "e" by {
      assert "_tape"[4..] == "e";
    }
    ReplaceSplit("x", "_tape", "_tap", "");
    assert stem[1..] == "_tape";
  }

  lemma TapeStemTapImage(stem: string)
    requires stem == "x_tape"
    ensures StemId(stem + "_tap") == "xe"
  {
    SuffixFacts();
    TapeStem(stem);
    assert ReplaceAll("_tap", "_tap", "") == "" by { assert "_tap"[4..] == ""; }
    ReplaceSplit(stem, "_tap", "_tap", "");
    ContainsSplit(stem, "_tap", "_tap");
  }

  lemma TapeStemLevelImage(stem: string)
    requires stem == "x_tape"
    ensures StemId(stem + "_level") == "xe_level"
  {
    SuffixFacts();
    TapeStem(stem);
    ReplaceAbsent("_level", "_tap", "");
    ReplaceSplit(stem, "_level", "_tap", "");
    ContainsSplit(stem, "_level", "_tap");
  }

  /** A stem that itself holds `_tap` breaks the pairing: `_tap` is removed
      from the level image's name too, and the two names no longer meet. With
      the stem `x_tape`, the tap image maps to `xe` and the level image to
      `xe_level`. */
  lemma TapInsideStemBreaksPairing(stem: string)
    requires stem == "x_tape"
    ensures GetBottleId(stem + "_tap" + "." + "jpg") == "xe"
    ensures GetBottleId(stem + "_level" + "." + "jpg") == "xe_level"
  {
    StripOneExtension(stem + "_tap", "jpg");
    StripOneExtension(stem + "_level", "jpg");
    TapeStemTapImage(stem);
    TapeStemLevelImage(stem);
  }

  /** The verdict: PASS only for `tap_present` with level `ok`, both compared
      exactly; anything else fails. */
  function Verdict(tapLabel: string, levelLabel: string): (r: Status)
    ensures r == PASS <==> !ErrorReport.HasError(tapLabel, levelLabel)
  {
    if tapLabel != "tap_present" || levelLabel != "ok" then FAIL else PASS
  }

  datatype Prediction = Prediction(lbl: string, confidence: real)

  /** How the two parallel classifier calls ended: both answered, the
      timeout fired first, or one of them raised. */
  datatype PredictOutcome =
    | Predicted(tap: Prediction, level: Prediction)
    | TimedOut
    | Raised(error: string)

  const TapTimeout: Prediction := Prediction("tap_timeout", 0.0)
  const LevelTimeout: Prediction := Prediction("level_timeout", 0.0)

  /** `process_bottle_parallel`: the two predictions, the timeout
      placeholders, or the exception that propagates. */
  function ParallelResult(outcome: PredictOutcome): (r: Result<(Prediction, Prediction)>)
    ensures outcome.Raised? <==> r.Err?
    ensures outcome.TimedOut? ==> r == Ok((TapTimeout, LevelTimeout))
    ensures outcome.Predicted? ==> r == Ok((outcome.tap, outcome.level))
  {
    match outcome
    case Predicted(tap, level) => Ok((tap, level))
    case TimedOut => Ok((TapTimeout, LevelTimeout))
    case Raised(e) => Err(e)
  }

  /** A timed-out bottle gets confidence 0 on both checks and fails. */
  lemma TimeoutFails()
    ensures var r := ParallelResult(TimedOut);
      r.Ok? && r.value.0.confidence == 0.0 && r.value.1.confidence == 0.0
      && Verdict(r.value.0.lbl, r.value.1.lbl) == FAIL
  {
  }

  /** The barrier entry of one bottle. */
  datatype BottlePair = BottlePair(
    tapBytes: Option<seq<bv8>>,
    levelBytes: Option<seq<bv8>>,
    tapBlobName: Option<string>,
    levelBlobName: Option<string>)

  datatype SubResult = SubResult(lbl: string, confidence: real, image: Option<string>)

  /** `final_result`, the data of the `analysis_result` message. */
  datatype FinalResult = FinalResult(
    bottleId: string,
    timestamp: string,
    tap: SubResult,
    level: SubResult,
    status: Status,
    bottlesProcessed: nat)

  /** A stored error report: its file name and what it shows. */
  datatype Upload = Upload(filename: string, report: ErrorReport.ReportPlan)

  function ReportName(bottleId: string): (r: string)
    ensures |r| == |bottleId| + 17 && r[..|bottleId|] == bottleId
  {
    bottleId + "_error_report.pdf"
  }

  /** The processor's module-level state (`bottle_counter`, `bottles`) and
      what it has handed on: the messages broadcast to the live feed and the
      reports uploaded. */
  class BottleProcessor {
    var bottleCounter: nat
    var bottles: map<string, BottlePair>
    var broadcasts: seq<FinalResult>
    var uploads: seq<Upload>

    /** Every uploaded report belongs to a failed bottle: its header is red. */
    ghost predicate Valid()
      reads this
    {
      forall u :: u in uploads ==> u.report.header == ErrorReport.Red
    }

    constructor ()
      ensures Valid()
      ensures bottleCounter == 0 && bottles == map[] && broadcasts == [] && uploads == []
    {
      bottleCounter, bottles, broadcasts, uploads := 0, map[], [], [];
    }

    /** `process_complete_bottle`. When the prediction raises, nothing
        changes and the exception propagates. Otherwise the counter goes up
        by one, the result (carrying the new count) is broadcast, a report
        named after the bottle is uploaded iff the verdict is FAIL, and the
        bottle leaves the barrier (leaving it absent if it was absent). */
    method ProcessCompleteBottle(bottleId: string, pair: BottlePair, outcome: PredictOutcome,
                                 timestamp: string)
      returns (r: Result<FinalResult>)
      requires Valid()
      modifies this
      ensures Valid()
      ensures r.Err? <==> outcome.Raised?
      ensures r.Err? ==>
        r.error == outcome.error && bottleCounter == old(bottleCounter)
        && bottles == old(bottles) && broadcasts == old(broadcasts) && uploads == old(uploads)
      ensures r.Ok? ==>
        var (tap, level) := ParallelResult(outcome).value;
        && bottleCounter == old(bottleCounter) + 1
        && r.value.bottlesProcessed == bottleCounter
        && r.value.status == Verdict(tap.lbl, level.lbl)
        && r.value.bottleId == bottleId && r.value.timestamp == timestamp
        && r.value.tap == SubResult(tap.lbl, tap.confidence, pair.tapBlobName)
        && r.value.level == SubResult(level.lbl, level.confidence, pair.levelBlobName)
        && broadcasts == old(broadcasts) + [r.value]
        && bottles == old(bottles) - {bottleId}
        && bottleId !in bottles
        && (r.value.status == FAIL ==>
              uploads == old(uploads) + [Upload(ReportName(bottleId),
                ErrorReport.Plan(bottleId, tap.lbl, level.lbl, pair.tapBytes, pair.levelBytes))])
        && (r.value.status == PASS ==> uploads == old(uploads))
    {
      var predictions := ParallelResult(outcome);
      if predictions.Err? {
        return Err(predictions.error);
      }
      var (tap, level) := predictions.value;
      bottleCounter := bottleCounter + 1;
      var status := PASS;
      if tap.lbl != "tap_present" || level.lbl != "ok" {
        status := FAIL;
      }
      var finalResult := FinalResult(
        bottleId, timestamp,
        SubResult(tap.lbl, tap.confidence, pair.tapBlobName),
        SubResult(level.lbl, level.confidence, pair.levelBlobName),
        status, bottleCounter);
      broadcasts := broadcasts + [finalResult];
      if status == FAIL {
        var report := ErrorReport.Plan(bottleId, tap.lbl, level.lbl, pair.tapBytes, pair.levelBytes);
        uploads := uploads + [Upload(ReportName(bottleId), report)];
      }
      if bottleId in bottles {
        bottles := bottles - {bottleId};
      }
      r := Ok(finalResult);
    }

    /** `process_bottle_from_blobs`: the two downloads (an exception in
        either propagates, the tap's first) feed one complete bottle. */
    method ProcessBottleFromBlobs(bottleId: string, tapBlobName: string, levelBlobName: string,
                                  tapRead: Result<seq<bv8>>, levelRead: Result<seq<bv8>>,
                                  outcome: PredictOutcome, timestamp: string)
      returns (r: Result<FinalResult>)
      requires Valid()
      modifies this
      ensures Valid()
      ensures tapRead.Err? ==> r == Err(tapRead.error)
      ensures tapRead.Ok? && levelRead.Err? ==> r == Err(levelRead.error)
      ensures tapRead.Ok? && levelRead.Ok? ==> (r.Err? <==> outcome.Raised?)
      ensures tapRead.Ok? && levelRead.Ok? && outcome.Raised? ==> r == Err(outcome.error)
      ensures r.Err? ==>
        bottleCounter == old(bottleCounter) && bottles == old(bottles)
        && broadcasts == old(broadcasts) && uploads == old(uploads)
      ensures r.Ok? ==>
        var (tap, level) := ParallelResult(outcome).value;
        && tapRead.Ok? && levelRead.Ok?
        && bottleCounter == old(bottleCounter) + 1
        && r.value.bottlesProcessed == bottleCounter
        && r.value.status == Verdict(tap.lbl, level.lbl)
        && r.value.bottleId == bottleId && r.value.timestamp == timestamp
        && r.value.tap == SubResult(tap.lbl, tap.confidence, Some(tapBlobName))
        && r.value.level == SubResult(level.lbl, level.confidence, Some(levelBlobName))
        && broadcasts == old(broadcasts) + [r.value]
        && bottles == old(bottles) - {bottleId}
        && bottleId !in bottles
        && (r.value.status == FAIL ==>
              uploads == old(uploads) + [Upload(ReportName(bottleId),
                ErrorReport.Plan(bottleId, tap.lbl, level.lbl, Some(tapRead.value), Some(levelRead.value)))])
        && (r.value.status == PASS ==> uploads == old(uploads))
    {
      if tapRead.Err? {
        return Err(tapRead.error);
      }
      if levelRead.Err? {
        return Err(levelRead.error);
      }
      var pair := BottlePair(Some(tapRead.value), Some(levelRead.value),
                             Some(tapBlobName), Some(levelBlobName));
      r := ProcessCompleteBottle(bottleId, pair, outcome, timestamp);
    }
  }
}
