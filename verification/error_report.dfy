/** The decisions behind the error report (Backend/app/pdf_generator.py):
    which header colour, which verdict each result block shows, which
    rejection reasons are listed, whether an image is replaced by a
    placeholder and which colour its border gets. Coordinates, fonts and the
    drawing itself are not modelled; `Plan` collects what would be drawn. */
module ErrorReport {
  import opened Text

  const TapReason: string := "• Absència o defecte en el tap"
  const LevelReason: string := "• Nivell incorrecte de líquid"
  const NoErrorLine: string := "— Cap error detectat"
  const ImagePlaceholder: string := "Imatge no disponible"

  datatype Colour = Red | Green | LightGreen | Salmon

  /** The report's error flag: the tap is not `tap_present` or the level is
      not `ok` (both compared exactly). */
  predicate HasError(tapLabel: string, levelLabel: string)
    ensures !HasError(tapLabel, levelLabel) ==> BlockOk(tapLabel) && BlockOk(levelLabel)
  {
    tapLabel != "tap_present" || levelLabel != "ok"
  }

  /** A result block reads OK when its label is `ok` or `tap_present`,
      whichever of the two blocks it is. */
  predicate BlockOk(lbl: string)
  {
    lbl in ["ok", "tap_present"]
  }

  /** The rejection reasons, tap first. */
  function Reasons(tapLabel: string, levelLabel: string): (r: seq<string>)
    ensures |r| <= 2
    ensures TapReason in r <==> tapLabel != "tap_present"
    ensures LevelReason in r <==> levelLabel != "ok"
    ensures forall x :: x in r ==> x == TapReason || x == LevelReason
    ensures |r| == 2 ==> r == [TapReason, LevelReason]
    ensures r == [] <==> !HasError(tapLabel, levelLabel)
  {
    var afterTap := if tapLabel != "tap_present" then [TapReason] else [];
    assert TapReason[2] != LevelReason[2];
    if levelLabel != "ok" then afterTap + [LevelReason] else afterTap
  }

  /** The lines drawn under "Motiu del rebuig:": the reasons, or the
      "no error" line when there are none. */
  function ReasonLines(tapLabel: string, levelLabel: string): (r: seq<string>)
    ensures r == [NoErrorLine] <==> !HasError(tapLabel, levelLabel)
    ensures HasError(tapLabel, levelLabel) ==> r == Reasons(tapLabel, levelLabel)
  {
    var reasons := Reasons(tapLabel, levelLabel);
    assert NoErrorLine[0] != TapReason[0] && NoErrorLine[0] != LevelReason[0];
    if reasons == [] then [NoErrorLine] else reasons
  }

  /** `not image_bytes`: no bytes, or empty bytes. */
  predicate ShowsPlaceholder(bytes: Option<seq<bv8>>)
  {
    bytes.None? || |bytes.value| == 0
  }

  datatype Block = Block(title: string, background: Colour, verdict: string, lbl: string)

  datatype ImagePlan = ImagePlan(title: string, placeholder: bool, border: Colour)

  datatype ReportPlan = ReportPlan(
    bottleId: string,
    header: Colour,
    tapBlock: Block,
    levelBlock: Block,
    reasonLines: seq<string>,
    tapImage: ImagePlan,
    levelImage: ImagePlan)

  function ResultBlock(title: string, lbl: string): (b: Block)
    ensures b.verdict == "OK" <==> BlockOk(lbl)
    ensures b.verdict == "ERROR" <==> !BlockOk(lbl)
    ensures b.background == (if BlockOk(lbl) then LightGreen else Salmon)
    ensures b.title == title && b.lbl == lbl
  {
    var ok := BlockOk(lbl);
    Block(title, if ok then LightGreen else Salmon, if ok then "OK" else "ERROR", lbl)
  }

  function Image(title: string, bytes: Option<seq<bv8>>, ok: bool): (p: ImagePlan)
    ensures p.placeholder <==> bytes.None? || bytes.value == []
    ensures p.border == Green <==> ok
    ensures p.border == Red <==> !ok
  {
    ImagePlan(title, ShowsPlaceholder(bytes), if ok then Green else Red)
  }

  /** What `generate_error_pdf` draws, decision by decision. */
  function Plan(bottleId: string, tapLabel: string, levelLabel: string,
                tapBytes: Option<seq<bv8>>, levelBytes: Option<seq<bv8>>): (p: ReportPlan)
    ensures p.header == Red <==> HasError(tapLabel, levelLabel)
    ensures p.header == Green <==> !HasError(tapLabel, levelLabel)
    ensures p.tapBlock.verdict == "OK" <==> BlockOk(tapLabel)
    ensures p.levelBlock.verdict == "OK" <==> BlockOk(levelLabel)
    ensures (NoErrorLine in p.reasonLines) <==> !HasError(tapLabel, levelLabel)
    ensures p.tapImage.border == Green <==> tapLabel == "tap_present"
    ensures p.levelImage.border == Green <==> levelLabel == "ok"
    ensures p.tapImage.placeholder <==> ShowsPlaceholder(tapBytes)
    ensures p.levelImage.placeholder <==> ShowsPlaceholder(levelBytes)
  {
    var lines := ReasonLines(tapLabel, levelLabel);
    assert HasError(tapLabel, levelLabel) ==> NoErrorLine !in lines by {
      assert NoErrorLine[0] != TapReason[0] && NoErrorLine[0] != LevelReason[0];
    }
    ReportPlan(
      bottleId,
      if HasError(tapLabel, levelLabel) then Red else Green,
      ResultBlock("TAP", tapLabel),
      ResultBlock("NIVELL", levelLabel),
      lines,
      Image("Tap", tapBytes, tapLabel == "tap_present"),
      Image("Nivell", levelBytes, levelLabel == "ok"))
  }

  /** The error flag, the reasons and the borders agree with each other: the
      header is red iff some reason is listed iff some border is red. */
  lemma HeaderReasonsBordersAgree(bottleId: string, tapLabel: string, levelLabel: string,
                                  tapBytes: Option<seq<bv8>>, levelBytes: Option<seq<bv8>>)
    ensures var p := Plan(bottleId, tapLabel, levelLabel, tapBytes, levelBytes);
      (p.header == Red) <==> (p.tapImage.border == Red || p.levelImage.border == Red)
    ensures var p := Plan(bottleId, tapLabel, levelLabel, tapBytes, levelBytes);
      (p.header == Red) <==> Reasons(tapLabel, levelLabel) != []
  {
  }

  /** The block verdicts accept both OK labels in either block, so they part
      from the borders exactly when the tap block gets `ok` or the level block
      gets `tap_present`. */
  lemma BlockDisagreesWithBorder(tapLabel: string, levelLabel: string)
    ensures (BlockOk(tapLabel) != (tapLabel == "tap_present")) <==> tapLabel == "ok"
    ensures (BlockOk(levelLabel) != (levelLabel == "ok")) <==> levelLabel == "tap_present"
  {
  }
}
