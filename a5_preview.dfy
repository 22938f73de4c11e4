/** The A5 preview component (public/js/a5-preview.js): a preview surface
    that shows submitted markup in a box of A5 proportions and warns when
    three measurement heuristics suspect the content overflows the page.

    The browser is not modelled. Every DOM measurement a check run reads
    is an input (`Readings`), and a heuristic that throws is marked in the
    readings. A single synchronous check run stands in for each of the
    three runs the component schedules with timers. */
module Preview {
  import opened Text
  import opened Selection

  /** Tolerances and the fixed content height of the heuristics. */
  const HeightTolerance: nat := 5
  const WidthTolerance: nat := 2
  const A5ContentHeight: nat := 357
  const VirtualTolerance: nat := 10

  /** What one heuristic returns: `{ hasOverflow, reason }`. */
  datatype Verdict = Verdict(hasOverflow: bool, reason: string)

  /** One heuristic's contribution to a run: its verdict, or the fact
      that it threw (which the run catches and ignores). */
  datatype Outcome = Returned(verdict: Verdict) | Threw

  /** `scrollHeight`, `clientHeight`, `scrollWidth`, `clientWidth` of the
      preview content element. */
  datatype Box = Box(scrollHeight: nat, clientHeight: nat, scrollWidth: nat, clientWidth: nat)

  /** Everything one check run reads from the page: the content box, the
      computed `overflow` style, the height of the off-screen clone, and
      which of the three heuristics throw. */
  datatype Readings = Readings(
    box: Box,
    overflowStyle: string,
    virtualHeight: nat,
    scrollThrows: bool,
    computedThrows: bool,
    virtualThrows: bool)

  // ---------------------------------------------------------------------
  // Heuristic 1: scroll size against client size, with tolerances

  predicate VerticalOverflow(b: Box) {
    b.scrollHeight > b.clientHeight + HeightTolerance
  }

  predicate HorizontalOverflow(b: Box) {
    b.scrollWidth > b.clientWidth + WidthTolerance
  }

  function HeightReason(b: Box): string {
    "Content height (" + NatToString(b.scrollHeight) + "px) exceeds container ("
      + NatToString(b.clientHeight) + "px)"
  }

  function WidthReason(b: Box): string {
    "Content width (" + NatToString(b.scrollWidth) + "px) exceeds container ("
      + NatToString(b.clientWidth) + "px)"
  }

  /** Overflow when either axis exceeds its tolerance; the reason names
      the height when it overflows, else the width, and is 'No overflow'
      exactly when nothing overflows. */
  function CheckScrollOverflow(b: Box): (v: Verdict)
    ensures v.hasOverflow <==> VerticalOverflow(b) || HorizontalOverflow(b)
    ensures v.hasOverflow <==> v.reason != "No overflow"
    ensures VerticalOverflow(b) ==> v.reason == HeightReason(b)
    ensures !VerticalOverflow(b) && HorizontalOverflow(b) ==> v.reason == WidthReason(b)
  {
    var vertical := VerticalOverflow(b);
    var horizontal := HorizontalOverflow(b);
    assert HeightReason(b)[0] == 'C' && WidthReason(b)[0] == 'C';
    Verdict(vertical || horizontal,
            if vertical then HeightReason(b)
            else if horizontal then WidthReason(b)
            else "No overflow")
  }

  // ---------------------------------------------------------------------
  // Heuristic 2: strict comparison, only when the element clips

  predicate StrictOverflow(b: Box) {
    b.scrollHeight > b.clientHeight || b.scrollWidth > b.clientWidth
  }

  /** Never reports overflow under `overflow: visible`; otherwise reports
      any excess at all, without tolerance. */
  function CheckComputedOverflow(overflowStyle: string, b: Box): (v: Verdict)
    ensures overflowStyle == "visible" ==> !v.hasOverflow
    ensures overflowStyle != "visible" ==> (v.hasOverflow <==> StrictOverflow(b))
    ensures v.reason == if v.hasOverflow then "Computed style indicates overflow"
                        else "No computed overflow"
  {
    var overflow := overflowStyle != "visible" && StrictOverflow(b);
    Verdict(overflow, if overflow then "Computed style indicates overflow" else "No computed overflow")
  }

  /** With clipping active, whatever heuristic 1 flags heuristic 2 flags
      too: its comparison is the same one without the tolerance bands. */
  lemma ClippedScrollOverflowIsComputedOverflow(overflowStyle: string, b: Box)
    requires overflowStyle != "visible"
    requires CheckScrollOverflow(b).hasOverflow
    ensures CheckComputedOverflow(overflowStyle, b).hasOverflow
  {
  }

  // ---------------------------------------------------------------------
  // Heuristic 3: the off-screen clone's height against the A5 content area

  function VirtualReasonPrefix(): string {
    "Virtual content height ("
  }

  function VirtualReason(height: nat): string {
    VirtualReasonPrefix() + NatToString(height) + "px) exceeds A5 content area ("
      + NatToString(A5ContentHeight) + "px)"
  }

  /** Overflow when the clone is taller than 357 + 10; the reason switches
      to the "exceeds" text already above 357. */
  function CheckVirtualOverflow(height: nat): (v: Verdict)
    ensures v.hasOverflow <==> height > A5ContentHeight + VirtualTolerance
    ensures v.hasOverflow ==> v.reason == VirtualReason(height)
    ensures height <= A5ContentHeight ==> v.reason == "No virtual overflow"
  {
    Verdict(height > A5ContentHeight + VirtualTolerance,
            if height > A5ContentHeight then VirtualReason(height) else "No virtual overflow")
  }

  /** Between 358 and 367 the verdict is "no overflow" although the
      reason already says the height exceeds the content area. */
  lemma VirtualToleranceBand(height: nat)
    requires A5ContentHeight < height <= A5ContentHeight + VirtualTolerance
    ensures !CheckVirtualOverflow(height).hasOverflow
    ensures CheckVirtualOverflow(height).reason == VirtualReason(height)
  {
  }

  /** The measured height can be read back out of the reason text. */
  lemma VirtualReasonCarriesHeight(height: nat)
    ensures var r := VirtualReason(height);
            var start := |VirtualReasonPrefix()|;
            var digits := NatToString(height);
            start + |digits| <= |r| && r[start..start + |digits|] == digits
            && DigitsValue(digits) == height
  {
    DigitsValueOfNatToString(height);
  }

  // ---------------------------------------------------------------------
  // One check run: the three heuristics, aggregated

  /** The outcomes of the three heuristics, in the order the run calls them. */
  function Outcomes(r: Readings): (os: seq<Outcome>)
    ensures |os| == 3
  {
    [ if r.scrollThrows then Threw else Returned(CheckScrollOverflow(r.box)),
      if r.computedThrows then Threw else Returned(CheckComputedOverflow(r.overflowStyle, r.box)),
      if r.virtualThrows then Threw else Returned(CheckVirtualOverflow(r.virtualHeight)) ]
  }

  /** A heuristic that returned and reported overflow. */
  predicate Fires(o: Outcome) {
    o.Returned? && o.verdict.hasOverflow
  }

  /** "Method k: reason", k counted from 1. */
  function Label(index: nat, reason: string): string {
    "Method " + NatToString(index + 1) + ": " + reason
  }

  /** The detail strings a run collects, in method order. */
  function Details(os: seq<Outcome>): seq<string>
    decreases |os|
  {
    if os == [] then []
    else
      var last := os[|os| - 1];
      Details(os[..|os| - 1]) + (if Fires(last) then [Label(|os| - 1, last.verdict.reason)] else [])
  }

  /** The details are exactly the firing methods, in method order, each
      labelled with its own 1-based number and its own reason. */
  lemma {:induction false} DetailsFollowFiringMethods(os: seq<Outcome>)
    ensures var p := Positions(os, Fires);
            |Details(os)| == |p|
            && forall j :: 0 <= j < |p| ==> Details(os)[j] == Label(p[j], os[p[j]].verdict.reason)
    decreases |os|
  {
    if os != [] {
      DetailsFollowFiringMethods(os[..|os| - 1]);
    }
  }

  /** A run collects no detail exactly when no method fires. */
  lemma DetailsEmptyIffNoneFires(os: seq<Outcome>)
    ensures Details(os) == [] <==> forall i :: 0 <= i < |os| ==> !Fires(os[i])
  {
    DetailsFollowFiringMethods(os);
    PositionsEmpty(os, Fires);
  }

  /** A method that throws contributes what a method reporting no
      overflow contributes, and does not disturb the methods after it. */
  lemma {:induction false} ThrowingMethodContributesNothing(os: seq<Outcome>, i: nat)
    requires i < |os| && !Fires(os[i])
    ensures Details(os[i := Threw]) == Details(os)
    decreases |os|
  {
    var n := |os|;
    var t := os[i := Threw];
    if i == n - 1 {
      assert t[..n - 1] == os[..n - 1];
    } else {
      assert t[..n - 1] == os[..n - 1][i := Threw];
      ThrowingMethodContributesNothing(os[..n - 1], i);
    }
  }

  /** The loop of `runOverflowChecks`: ORs the verdicts of the methods
      that return and collects a labelled detail for each one that fires. */
  method CollectVerdicts(checks: seq<Outcome>) returns (hasOverflow: bool, details: seq<string>)
    ensures hasOverflow <==> exists i :: 0 <= i < |checks| && Fires(checks[i])
    ensures hasOverflow <==> details != []
    ensures details == Details(checks)
  {
    hasOverflow := false;
    details := [];
    var k := 0;
    while k < |checks|
      invariant k <= |checks|
      invariant hasOverflow <==> exists i :: 0 <= i < k && Fires(checks[i])
      invariant details == Details(checks[..k])
    {
      assert checks[..k + 1][..k] == checks[..k];
      match checks[k] {
        case Threw =>
        case Returned(result) =>
          if result.hasOverflow {
            hasOverflow := true;
            details := details + [Label(k, result.reason)];
          }
      }
      k := k + 1;
    }
    assert checks[..k] == checks;
    DetailsEmptyIffNoneFires(checks);
  }

  /** The run's verdict: some heuristic that returned reported overflow. */
  predicate Overflowing(r: Readings) {
    exists i :: 0 <= i < 3 && Fires(Outcomes(r)[i])
  }

  /** Content that fits the box and the A5 content area raises nothing,
      whatever the computed overflow style and whichever methods throw. */
  lemma FittingContentIsNotOverflowing(r: Readings)
    requires r.box.scrollHeight <= r.box.clientHeight && r.box.scrollWidth <= r.box.clientWidth
    requires r.virtualHeight <= A5ContentHeight
    ensures !Overflowing(r)
    ensures Details(Outcomes(r)) == []
  {
    DetailsEmptyIffNoneFires(Outcomes(r));
  }

  /** Content whose clone is taller than 367 is reported by method 3 when
      it does not throw, and the last detail names the measured height. */
  lemma TallContentIsReported(r: Readings)
    requires !r.virtualThrows && r.virtualHeight > A5ContentHeight + VirtualTolerance
    ensures Overflowing(r)
    ensures var d := Details(Outcomes(r));
            d != [] && d[|d| - 1] == Label(2, VirtualReason(r.virtualHeight))
  {
    var os := Outcomes(r);
    assert Fires(os[2]);
    assert os[..2][..1] == os[..1] && os[..1][..0] == [];
  }

  /** A throwing scroll heuristic leaves the verdict and details to
      methods 2 and 3, still numbered 2 and 3. */
  lemma ScrollFailureIsIsolated(r: Readings)
    requires r.scrollThrows
    ensures Overflowing(r) <==> Fires(Outcomes(r)[1]) || Fires(Outcomes(r)[2])
    ensures var os := Outcomes(r);
            Details(os) == (if Fires(os[1]) then [Label(1, os[1].verdict.reason)] else [])
                           + (if Fires(os[2]) then [Label(2, os[2].verdict.reason)] else [])
  {
    var os := Outcomes(r);
    assert os[..1] == [Threw] && os[..1][..0] == [];
    assert Details(os[..1]) == [];
    assert os[..2][..1] == os[..1] && os[..2][1] == os[1];
    assert Details(os[..2]) == if Fires(os[1]) then [Label(1, os[1].verdict.reason)] else [];
    assert os[..3] == os;
  }

  // ---------------------------------------------------------------------
  // The component's state and its updates

  /** `styles.backgroundColor` and `styles.color`; "" stands for a missing
      (falsy) property. */
  datatype Styles = Styles(backgroundColor: string, color: string)

  /** What the component shows: the content element's markup, the page's
      background, the content's text colour, the warning's `show` class and
      text, and the content element's border. */
  datatype View = View(
    content: string,
    background: string,
    textColor: string,
    warningShown: bool,
    warningText: string,
    border: string,
    borderRadius: string)

  const OverflowBorder := "2px solid #dc3545"
  const NoBorder := "none"
  const PaperColour := "#ffffff"
  const WarningHead := "\U{26A0}\U{FE0F} Content exceeds A5 page boundaries."
  const WarningTail := "Consider reducing content or splitting into multiple pages."
  const Placeholder :=
    "<div style=\"text-align: center; color: #999; padding: 100px 20px;\">Select content to preview</div>"
  /** The content element's markup right after `init`, whitespace included. */
  const InitialContent :=
    "\n            <div style=\"text-align: center; color: #999; padding: 100px 20px;\">\n"
    + "              Select content to preview\n            </div>\n          "

  function InitialView(): View {
    View(InitialContent, "", "", false, WarningHead + " " + WarningTail, "", "")
  }

  /** The banner text once details are known. */
  function WarningMessage(details: seq<string>): string {
    WarningHead + " " + Join(details, "; ") + ". " + WarningTail
  }

  /** `updateContent` before its overflow check: new markup, and the two
      style overrides that are present. */
  function Updated(v: View, html: string, styles: Styles): View {
    v.(content := html,
       background := if styles.backgroundColor != "" then styles.backgroundColor else v.background,
       textColor := if styles.color != "" then styles.color else v.textColor)
  }

  /** `showOverflowWarning(details)`; does nothing without a warning element. */
  function Shown(v: View, hasWarning: bool, details: seq<string>): View {
    if !hasWarning then v
    else v.(warningShown := true, border := OverflowBorder, borderRadius := "4px",
            warningText := if |details| > 0 then WarningMessage(details) else v.warningText)
  }

  /** `hideOverflowWarning()`; does nothing without a warning element. */
  function Hidden(v: View, hasWarning: bool): View {
    if !hasWarning then v else v.(warningShown := false, border := NoBorder)
  }

  /** The state after one check run on readings `r`. */
  function AfterCheck(v: View, hasWarning: bool, r: Readings): View {
    if Overflowing(r) then Shown(v, hasWarning, Details(Outcomes(r))) else Hidden(v, hasWarning)
  }

  /** `clear()`: placeholder markup and paper background when mounted,
      then the warning hidden. */
  function Cleared(v: View, mounted: bool, hasWarning: bool): View {
    Hidden(if mounted then v.(content := Placeholder, background := PaperColour) else v, hasWarning)
  }

  /** After a run the banner and border follow the verdict; an
      overflowing run always rewrites the banner with its details, a clean
      run leaves the last text in place; content and colours are untouched. */
  lemma CheckShowsVerdict(v: View, r: Readings)
    ensures var w := AfterCheck(v, true, r);
            w.content == v.content && w.background == v.background && w.textColor == v.textColor
            && (Overflowing(r) ==> w.warningShown && w.border == OverflowBorder
                                   && w.warningText == WarningMessage(Details(Outcomes(r))))
            && (!Overflowing(r) ==> !w.warningShown && w.border == NoBorder
                                    && w.warningText == v.warningText)
  {
    DetailsEmptyIffNoneFires(Outcomes(r));
  }

  /** Overlapping runs are harmless: a run repeated on the same readings
      changes nothing, and after two runs the banner and border are those
      of the later run. */
  lemma CheckIsIdempotent(v: View, hasWarning: bool, r: Readings)
    ensures AfterCheck(AfterCheck(v, hasWarning, r), hasWarning, r) == AfterCheck(v, hasWarning, r)
  {
  }

  lemma LastRunWins(v: View, r1: Readings, r2: Readings)
    ensures var w := AfterCheck(AfterCheck(v, true, r1), true, r2);
            w.warningShown == Overflowing(r2)
            && w.border == (if Overflowing(r2) then OverflowBorder else NoBorder)
  {
  }

  /** Clearing twice is clearing once. */
  lemma ClearIsIdempotent(v: View, mounted: bool, hasWarning: bool)
    ensures Cleared(Cleared(v, mounted, hasWarning), mounted, hasWarning) == Cleared(v, mounted, hasWarning)
  {
  }

  /** The preview component. `mounted` says whether the container was
      found at construction; without it the instance is inert.
      `warningOption` is the `showOverflowWarning` option, which decides
      whether the warning element exists. */
  class A5Preview {
    const mounted: bool
    const warningOption: bool
    var content: string
    var background: string
    var textColor: string
    var warningShown: bool
    var warningText: string
    var border: string
    var borderRadius: string

    /** The warning element exists: the container was found and the
        option asked for it. */
    predicate HasWarning() {
      mounted && warningOption
    }

    function Snapshot(): View
      reads this
    {
      View(content, background, textColor, warningShown, warningText, border, borderRadius)
    }

    /** `getContent()`: the markup shown, or '' for an inert instance. */
    function GetContent(): (html: string)
      reads this
      ensures !mounted ==> html == ""
      ensures mounted ==> html == Snapshot().content
    {
      if mounted then content else ""
    }

    constructor (containerFound: bool, showOverflowWarning: bool)
      ensures mounted == containerFound && warningOption == showOverflowWarning
      ensures Snapshot() == InitialView()
      ensures GetContent() == if containerFound then InitialContent else ""
    {
      mounted := containerFound;
      warningOption := showOverflowWarning;
      content := InitialContent;
      background := "";
      textColor := "";
      warningShown := false;
      warningText := WarningHead + " " + WarningTail;
      border := "";
      borderRadius := "";
    }

    method ShowOverflowWarning(details: seq<string>)
      modifies this
      ensures Snapshot() == Shown(old(Snapshot()), HasWarning(), details)
    {
      if !HasWarning() {
        return;
      }
      warningShown := true;
      border := OverflowBorder;
      borderRadius := "4px";
      if |details| > 0 {
        warningText := WarningMessage(details);
      }
    }

    method HideOverflowWarning()
      modifies this
      ensures Snapshot() == Hidden(old(Snapshot()), HasWarning())
    {
      if !HasWarning() {
        return;
      }
      warningShown := false;
      border := NoBorder;
    }

    /** `runOverflowChecks`: aggregate the three heuristics and show or
        hide the warning accordingly. */
    method RunOverflowChecks(r: Readings)
      modifies this
      ensures Snapshot() == AfterCheck(old(Snapshot()), HasWarning(), r)
    {
      var hasOverflow, details := CollectVerdicts(Outcomes(r));
      if hasOverflow {
        ShowOverflowWarning(details);
      } else {
        HideOverflowWarning();
      }
    }

    /** `checkOverflow`: nothing happens without a warning element. */
    method CheckOverflow(r: Readings)
      modifies this
      ensures HasWarning() ==> Snapshot() == AfterCheck(old(Snapshot()), true, r)
      ensures !HasWarning() ==> Snapshot() == old(Snapshot())
    {
      if !HasWarning() {
        return;
      }
      RunOverflowChecks(r);
    }

    /** `updateContent(html, styles)`, followed by one check run on the
        readings of the new content. */
    method UpdateContent(html: string, styles: Styles, r: Readings)
      modifies this
      ensures mounted ==> Snapshot() == AfterCheck(Updated(old(Snapshot()), html, styles), HasWarning(), r)
      ensures !mounted ==> Snapshot() == old(Snapshot())
      ensures GetContent() == if mounted then html else ""
      ensures mounted && styles.backgroundColor != "" ==> background == styles.backgroundColor
      ensures styles.backgroundColor == "" ==> background == old(background)
      ensures mounted && styles.color != "" ==> textColor == styles.color
      ensures styles.color == "" ==> textColor == old(textColor)
    {
      if !mounted {
        return;
      }
      if styles.backgroundColor != "" {
        background := styles.backgroundColor;
      }
      if styles.color != "" {
        textColor := styles.color;
      }
      content := html;
      CheckOverflow(r);
    }

    /** `clear()`: placeholder, paper background, warning hidden; the text
        colour is kept. */
    method Clear()
      modifies this
      ensures Snapshot() == Cleared(old(Snapshot()), mounted, HasWarning())
      ensures mounted ==> GetContent() == Placeholder && background == PaperColour
      ensures textColor == old(textColor)
      ensures HasWarning() ==> !warningShown && border == NoBorder
    {
      if mounted {
        content := Placeholder;
        background := PaperColour;
      }
      HideOverflowWarning();
    }
  }

  /** `A5Preview.createPreview`: construct, then show `content` when it
      is non-empty, styled by `styles`. */
  method CreatePreview(containerFound: bool, showOverflowWarning: bool, content: string,
                       styles: Styles, r: Readings)
    returns (p: A5Preview)
    ensures fresh(p) && p.mounted == containerFound && p.warningOption == showOverflowWarning
    ensures p.GetContent() == if !containerFound then "" else if content != "" then content else InitialContent
    ensures p.Snapshot() == if containerFound && content != ""
                            then AfterCheck(Updated(InitialView(), content, styles), p.HasWarning(), r)
                            else InitialView()
    ensures p.HasWarning() && content != "" ==> p.warningShown == Overflowing(r)
  {
    p := new A5Preview(containerFound, showOverflowWarning);
    if content != "" {
      p.UpdateContent(content, styles, r);
    }
  }

  // ---------------------------------------------------------------------
  // The A5 dimension self-test

  /** `verifyA5Dimensions()`'s result, with exact rationals for numbers. */
  datatype DimensionReport = DimensionReport(
    isCorrect: bool,
    expectedRatio: real,
    actualRatio: real,
    difference: real,
    widthPx: nat,
    heightPx: nat,
    widthMm: nat,
    heightMm: nat)

  const RatioTolerance: real := 0.0001

  function Abs(x: real): real {
    if x < 0.0 then -x else x
  }

  /** The self-test's computation for a preview box of the given size. */
  function CheckBoxRatio(widthPx: nat, heightPx: nat): (d: DimensionReport)
    requires heightPx > 0
    ensures d.expectedRatio == 148.0 / 210.0
    ensures d.actualRatio * (heightPx as real) == widthPx as real
    ensures d.isCorrect <==> Abs(d.expectedRatio - d.actualRatio) < RatioTolerance
    ensures d.widthPx == widthPx && d.heightPx == heightPx && d.widthMm == 148 && d.heightMm == 210
  {
    var expected := 148.0 / 210.0;
    var actual := (widthPx as real) / (heightPx as real);
    var difference := Abs(expected - actual);
    DimensionReport(difference < RatioTolerance, expected, actual, difference, widthPx, heightPx, 148, 210)
  }

  /** The shipped self-test on the 280x397 box: its ratio is off A5 by
      exactly 44/83370 (about 0.00053), so it reports `isCorrect: false`. */
  function VerifyA5Dimensions(): (d: DimensionReport)
    ensures !d.isCorrect
    ensures d.difference == 44.0 / 83370.0
    ensures d.widthPx == 280 && d.heightPx == 397
  {
    CheckBoxRatio(280, 397)
  }

  /** No integer height makes a 280-pixel-wide box pass the test: 397 is
      too short by 44/83370 and 398 already too tall. */
  lemma NoHeightFitsWidth280(heightPx: nat)
    requires heightPx > 0
    ensures !CheckBoxRatio(280, heightPx).isCorrect
  {
    var h := heightPx as real;
    var x := CheckBoxRatio(280, heightPx).actualRatio;
    assert x * h == 280.0;
    assert x > 0.0;
    if heightPx <= 397 {
      assert x * 397.0 >= x * h;
      assert x >= 280.0 / 397.0;
    } else {
      assert x * 398.0 <= x * h;
      assert x <= 280.0 / 398.0;
    }
  }

  /** A box exactly proportional to 148:210 passes. */
  lemma ProportionalBoxPasses(widthPx: nat, heightPx: nat)
    requires heightPx > 0 && widthPx * 210 == heightPx * 148
    ensures CheckBoxRatio(widthPx, heightPx).isCorrect
    ensures CheckBoxRatio(widthPx, heightPx).difference == 0.0
  {
    var w, h := widthPx as real, heightPx as real;
    var x := CheckBoxRatio(widthPx, heightPx).actualRatio;
    assert w * 210.0 == h * 148.0 by {
      assert (widthPx * 210) as real == (heightPx * 148) as real;
    }
    RatioOfProportionalSides(x, w, h);
  }

  /** A ratio `x = w / h` of sides in proportion 148:210 is 148/210. */
  lemma RatioOfProportionalSides(x: real, w: real, h: real)
    requires h > 0.0 && x * h == w && w * 210.0 == h * 148.0
    ensures x == 148.0 / 210.0
  {
    calc {
      (x * 210.0) * h;
      (x * h) * 210.0;
      w * 210.0;
      148.0 * h;
    }
  }

  /** The self-test on a 296x420 box, twice A5 in millimetres, the nearest
      box to 280x397 that meets the intended proportion exactly. */
  function VerifyA5DimensionsCorrected(): (d: DimensionReport)
    ensures d.isCorrect && d.difference == 0.0
    ensures d.widthPx * 210 == d.heightPx * 148
  {
    ProportionalBoxPasses(296, 420);
    CheckBoxRatio(296, 420)
  }
}
