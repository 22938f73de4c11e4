# Theatre programme maker: A5 preview and PDF page plan

This project models two parts of a small theatre-programme generator.

The first is the browser-side `A5Preview` component. It shows HTML inside a
box of A5 proportions. Three heuristics decide whether the content
overflows the page:

- the scroll size against the client size, with 5 px and 2 px tolerances;
- the computed `overflow` style with a strict comparison;
- the height of an off-screen clone against the 357 px A5 content area,
  with a 10 px tolerance.

When the content overflows, the component shows a warning banner with one
labelled detail per heuristic that fired. It also carries a self-test of
its own proportions.

The second is the decision logic of the server's `/generate` handler,
which turns a submitted form into an A5 PDF programme. It covers:

- how the body fields are normalised: JavaScript truthiness, `a[] || a || []`
  chains, and indexing into a lone string;
- how the theme is looked up, falling back to classic;
- which cast and crew entries are credited;
- how the photo grid is laid out;
- how advert images are sized;
- which pages the handler adds explicitly, in which order, and what each of
  them holds;
- when the handler produces no programme at all.

The modules are:

- `Text` (`text.dfy`): the decimal rendering of numbers inside template
  literals, and `join`.
- `Selection` (`selection.dfy`): the indices of a sequence that pass a test,
  in order. The detail list, the credit lines and the grid all use it.
- `Preview` (`a5_preview.dfy`): the heuristics, the aggregation loop, the
  `A5Preview` class and the dimension self-test. The class's fields are the
  parts of the DOM it writes. Each method is proved against a function on a
  `View` value. Those functions carry the lemmas about repeated checks and
  repeated clears.
- `Form` (`form.dfy`): the request body and the uploads as values, the
  normalised cast, crew and adverts, and the theme table.
- `Layout` (`layout.dfy`): the credit-line and grid-placement loops, and the
  advert sizing rule and loop.
- `PagePlan` (`plan.dfy`): `Generate`, which appends pages section by section
  as the handler does. It produces nothing when the theme's border file
  exists but does not decode. Otherwise its result is proved equal to
  `Programme`, a declarative description of the page sequence as written.
  `CorrectedProgramme` applies the two corrections from the findings below.
  Lemmas give the page order, the page count and the photo numbering, and
  say where the two programmes agree.

Drawing is modelled as a sequence of blocks per page: text, separators,
images with their fit box, grid cells, and cursor moves. Some things are
inputs rather than computed:

- which files exist on disk;
- which images decode;
- the page size;
- the vertical cursor position where the cast section starts, since it
  depends on font metrics.

## Model

| member | source | states |
|---|---|---|
| Preview.CheckScrollOverflow | public/js/a5-preview.js:114-128 | overflow iff height exceeds client+5 or width exceeds client+2; the reason names the height first, else the width, and is "No overflow" exactly when nothing overflows |
| Preview.CheckComputedOverflow | public/js/a5-preview.js:130-140 | never overflows under `overflow: visible`; otherwise overflows iff scroll exceeds client on either axis, with no tolerance; reason text follows the verdict |
| Preview.ClippedScrollOverflowIsComputedOverflow | public/js/a5-preview.js:120-134 | with clipping on, anything heuristic 1 flags heuristic 2 flags too |
| Preview.CheckVirtualOverflow | public/js/a5-preview.js:164-172 | overflow iff the clone is taller than 357+10; an overflowing verdict's reason quotes the height; "No virtual overflow" at or below 357 |
| Preview.VirtualToleranceBand | public/js/a5-preview.js:170-171 | heights 358..367 give no overflow but a reason that already says "exceeds" |
| Preview.VirtualReasonCarriesHeight | public/js/a5-preview.js:171 | the height can be read back out of the reason text exactly |
| Preview.CollectVerdicts | public/js/a5-preview.js:91-105 | the flag is set iff some method returned an overflowing verdict, iff the detail list is non-empty; the details equal `Details` of the outcomes |
| Preview.DetailsFollowFiringMethods | public/js/a5-preview.js:95-101 | the details are exactly the firing methods in order, each labelled "Method k" with its own 1-based number and its own reason |
| Preview.DetailsEmptyIffNoneFires | public/js/a5-preview.js:95-105 | no detail is collected iff no method fires |
| Preview.ThrowingMethodContributesNothing | public/js/a5-preview.js:96-104 | a method that throws leaves the details as a non-firing method would, and later methods keep their numbers |
| Preview.FittingContentIsNotOverflowing | public/js/a5-preview.js:91-111 | content within the box and within 357 px raises no warning, whatever the overflow style and whichever methods throw |
| Preview.TallContentIsReported | public/js/a5-preview.js:98-100 | a clone taller than 367 px is reported, and the last detail is method 3's reason with the measured height |
| Preview.ScrollFailureIsIsolated | public/js/a5-preview.js:95-105 | when heuristic 1 throws, the verdict is decided by methods 2 and 3, and the details are exactly their firing reasons labelled "Method 2" and "Method 3" |
| Preview.CheckShowsVerdict | public/js/a5-preview.js:107-111 | after a run the banner and border follow the verdict; an overflowing run rewrites the banner with its details; content and colours are untouched |
| Preview.CheckIsIdempotent | public/js/a5-preview.js:86-88 | repeating a run on the same readings changes nothing, so three timed runs on unchanged readings equal one |
| Preview.LastRunWins | public/js/a5-preview.js:86-88 | after two runs, the banner and border reflect the later run |
| Preview.ClearIsIdempotent | public/js/a5-preview.js:203-211 | clearing twice is clearing once |
| Preview.A5Preview.constructor | public/js/a5-preview.js:7-45 | records whether the container was found and the warning option; the initial markup and warning text; `getContent` is '' for an inert instance |
| Preview.A5Preview.GetContent | public/js/a5-preview.js:216-218 | the shown markup when mounted, '' otherwise |
| Preview.A5Preview.ShowOverflowWarning | public/js/a5-preview.js:175-189 | no effect without a warning element; otherwise shows the banner, sets the red border and radius, and rewrites the text only when there are details |
| Preview.A5Preview.HideOverflowWarning | public/js/a5-preview.js:191-198 | no effect without a warning element; otherwise hides the banner and removes the border |
| Preview.A5Preview.RunOverflowChecks | public/js/a5-preview.js:91-112 | the new state is the show or hide that the aggregated verdict of the three heuristics selects |
| Preview.A5Preview.CheckOverflow | public/js/a5-preview.js:75-89 | nothing changes without a warning element; otherwise the state after a check run |
| Preview.A5Preview.UpdateContent | public/js/a5-preview.js:52-70 | inert instances are unchanged; otherwise new markup, each style applied only when present, then a check; `getContent` returns the new markup |
| Preview.A5Preview.Clear | public/js/a5-preview.js:203-211 | placeholder markup and white background when mounted, warning hidden, text colour kept |
| Preview.CreatePreview | public/js/a5-preview.js:223-229 | a fresh instance in its initial state; with a container and non-empty content, the content and the present styles are applied and one check run follows, so with a warning element the banner shows exactly when the readings overflow |
| Preview.CheckBoxRatio | public/js/a5-preview.js:234-249 | the expected ratio is 148/210, the actual ratio is width/height, and the test passes iff they differ by less than 0.0001 |
| Preview.VerifyA5Dimensions | public/js/a5-preview.js:234-250 | the shipped 280x397 box fails its own test: the difference is exactly 44/83370 |
| Preview.NoHeightFitsWidth280 | public/js/a5-preview.js:236-241 | no whole-pixel height makes a 280 px wide box pass |
| Preview.ProportionalBoxPasses | public/js/a5-preview.js:235-241 | every box exactly in A5 proportion passes with difference 0 |
| Preview.VerifyA5DimensionsCorrected | public/js/a5-preview.js:234-250 | a 296x420 box is exactly proportional and passes |
| Text.NatToString | public/js/a5-preview.js:100 | a non-empty digit string without a leading zero, as a template literal prints a count |
| Text.DigitsValueOfNatToString | public/js/a5-preview.js:100 | reading the printed number back gives the number |
| Text.Join | public/js/a5-preview.js:186 | joining nothing gives '', one part gives the part, and the result starts with the first part |
| Form.ListFieldsAreTruthy | server.js:106-113 | after the `[]` fallback every list field is truthy |
| Form.ItemOr | server.js:119 | the list element at i when non-empty, else the fallback; on a lone string, indexing yields one character |
| Form.People | server.js:116-130 | a name list gives one entry per name with the same-position role or '' and photo; a lone name gives one entry with the raw role |
| Form.RolesPairWithNames | server.js:117-120 | each name is paired with its own role, or '' when that role is missing |
| Form.AdvertsAsWritten | server.js:132-142 | a title list gives one advert per title with the layout defaulting to 'full'; a lone title gives one advert; no title gives none |
| Form.LoneAdvertLosesFullLayout | server.js:138-142 | a lone title with no layout gets the `[]` fallback as its layout, not 'full' |
| Form.CorrectedAdverts | server.js:132-142 | as written for title lists; for a lone title, the layout falls back to 'full' when no layout was submitted |
| Form.CorrectedAdvertsDifferOnlyInLoneLayout | server.js:132-142 | the correction keeps the number of adverts and every title and image, and changes nothing unless a lone title comes without a layout |
| Form.LoneAdvertDefaultsToFull | server.js:140 | the corrected lone advert without a layout is 'full' |
| Form.ThemeTable | server.js:32-75 | a theme found under a name has that name |
| Form.ThemeTableFindsEveryTheme | server.js:32-75 | every theme is found under its own name |
| Form.ResolveTheme | server.js:151 | a missing or unknown theme gives classic; a known name gives that theme |
| Form.ResolveThemeByName | server.js:151 | a name selects its theme iff it names one; otherwise classic |
| Layout.Credits | server.js:311-315 | one line per credited entry (name and role both truthy), in order, as "name ....... role" |
| Layout.CreditsStep | server.js:311-315 | each further entry adds its line exactly when it is credited |
| Layout.UncreditedPeoplePrintNothing | server.js:312 | with no credited entry the list is empty |
| Layout.CreditLines | server.js:311-327 | the loop prints exactly `Credits`, no more lines than entries |
| Layout.PlaceGrid | server.js:265-307 | the cells are exactly `GridCells`; the k-th credited person is at column k mod 3 and row k div 3; the cursor ends 120 below the last row |
| Layout.GridPlacesCreditedInOrder | server.js:274-305 | closed form of the grid: credited people only, in order, at 90-point columns and 100-point rows, photo or grey square |
| Layout.AdvertFit | server.js:371-380 | width: full text width for 'full', half less 10 for 'half', a third less gaps otherwise; height 80 for 'quarter', else 120 |
| Layout.AdvertWidthsTile | server.js:371-373 | two halves plus a gap, or three thirds plus two gaps, make a full width; full > half > third |
| Layout.AdvertBlocks | server.js:370-388 | an advert draws something iff its title is truthy, starting with the title; a second block exists iff it has an image path that is on disk; that block is the image fitted to its layout when it loads, else the error line |
| Layout.UntitledAdvertsDrawNothing | server.js:369-370 | untitled adverts draw nothing |
| Layout.DrawAdverts | server.js:368-390 | the loop draws exactly `AdvertSection` |
| Layout.LoneAdvertIsDrawnAtThirdWidth | server.js:371-373 | a lone advert without a layout, as the handler builds it, is fitted to a third of the width, narrower than full |
| Layout.LoneAdvertIsDrawnAtFullWidth | server.js:371-373 | the corrected lone advert is fitted to the full width |
| PagePlan.MissingDirectorSignsUndefined | server.js:355 | without a director, the note is signed "- undefined" |
| PagePlan.Signature | server.js:355 | agrees with the handler whenever a director is given; "- " otherwise |
| PagePlan.OpeningPages | server.js:183-242 | front page with border and logo; a cover page when the cover is on disk; the title block on the front page without a cover, on its own page with a cover and no overlay |
| PagePlan.CreditsPageFor | server.js:253-327 | the credits page: headings, the cast as a grid or list, then the crew |
| PagePlan.NotePagesFor | server.js:329-356 | a note page iff a note is given, with the photo, the narrowed note and the signature as written, `- ${director}` |
| PagePlan.AdvertPagesFor | server.js:358-397 | an adverts page iff there is an advert entry or sponsor text, drawing the adverts as the handler builds them |
| PagePlan.PhotoPagesFor | server.js:399-416 | one page per extra photo, numbered from 1, with the image or an error line |
| PagePlan.PhotoPages | server.js:400-416 | page i is photo i+1's page, one page per photo |
| PagePlan.Generate | server.js:165-416 | no programme iff the theme's border file is on disk but does not decode; otherwise the pages the handler adds explicitly, equal to `Programme` |
| PagePlan.CorrectedProgrammeAgreesElsewhere | server.js:132-142 | with a director named and no lone advert title lacking a layout, the corrected programme is the handler's |
| PagePlan.UnsignedNoteEndings | server.js:355 | a note without a director ends "- undefined" as written and "- " once corrected |
| PagePlan.PageOrder | server.js:183-416 | the kinds of the explicitly added pages in order: front, cover?, title?, synopsis, credits, note?, adverts?, then Photo 1..n |
| PagePlan.PageCount | server.js:183-416 | the number of explicitly added pages, section by section |
| PagePlan.PhotoPagesAreNumbered | server.js:400-404 | the i-th extra photo's page is the i-th of the last n pages, titled "Photo i+1" |
| PagePlan.MissingCoverWithOverlayLosesTitle | server.js:199-242 | a named cover missing from disk with the overlay on gives no cover page and no title block |

## Left out

- DOM, layout engine and timers: the element sizes, the computed style, the clone height and whether each heuristic throws are inputs (`Readings`). The three `setTimeout` runs are one synchronous run; `CheckIsIdempotent` and `LastRunWins` say what the repetition amounts to when the readings stay the same; readings that change between the runs, as layout settles, are not modelled.
- Preview.HideOverflowWarning: hiding the banner keeps its text, so after an overflowing run followed by a clean one the hidden banner still holds the earlier details; the model keeps that text too (`Hidden` leaves `warningText` alone), and nothing shows it.
- Preview.A5Preview.UpdateContent: the markup is stored as given; the browser re-serialising `innerHTML` is not modelled.
- Preview.A5Preview.constructor: the label, the title option and the structure markup are not modelled; the warning element exists exactly when the container was found and the option is truthy.
- Preview.VerifyA5Dimensions: the numbers are exact rationals rather than IEEE doubles; the verdict does not depend on rounding.
- Console logging, the module export and the global registration.
- PDF drawing: fonts, font sizes, colours, alignment, line breaking and `moveDown` spacing. Theme colours and fonts are configuration; only the border image path is modelled.
- Form.ResolveTheme: only the six theme keys are modelled, not inherited object keys such as `constructor`.
- Form.ItemAt: indexing a lone string picks a Unicode scalar value, while JavaScript indexes UTF-16 code units; a character outside the Basic Multilingual Plane becomes a lone surrogate in JavaScript and a whole character here.
- Form.Body: scalar fields that arrive as repeated fields (arrays) are not modelled; each is a string or missing.
- File uploads: multer's storage, file naming and `maxCount` limits. Uploads are lists of stored paths; file existence and image decoding are sets of paths.
- PagePlan.Generate: the pages PDFKit adds by itself when text or the grid runs past the bottom margin are not modelled. A long synopsis, cast or crew list, note or advert list, or a cast grid of more than about four rows, yields more pages than `Programme` lists; the model gives only the pages the handler adds explicitly, and the blocks each section draws in order.
- PagePlan.Generate: a border that fails to decode on a later page is not modelled apart: the same file is drawn first on page 1, outside any error handling (server.js:184), so the handler has already failed there; `Generate` returns no programme in that case.
- PagePlan.Generate: the response headers, the streamed PDF bytes and the border's own cursor move are not modelled. The cast section's starting height is an input because it depends on font metrics.

## Findings

| source | as written | input that shows it | evidently intended | confidence | as-written member | corrected member |
|---|---|---|---|---|---|---|
| server.js:138-142 | a lone advert's layout falls back to 'full' only when `advertLayouts` is falsy, but it has already fallen back to `[]`, which is truthy | one `advertTitle` field ("Acme") and no `advertLayout` field | layout 'full', as for a list of titles, so the image is fitted to the full width | high, not executed | Form.LoneAdvertLosesFullLayout | Form.LoneAdvertDefaultsToFull |
| public/js/a5-preview.js:234-250 | the self-test compares the 280x397 preview box with 148/210 at tolerance 0.0001 | `verifyA5Dimensions()` with no arguments: the difference is 44/83370, about 0.00053 | a preview box whose ratio passes, such as 296x420 | medium, not executed | Preview.VerifyA5Dimensions | Preview.VerifyA5DimensionsCorrected |
| server.js:355 | the signature is `- ${director}` with no fallback | a director's note submitted without a director | "- ", using the empty-string fallback the title page applies to the same field (line 233) | high, not executed | PagePlan.MissingDirectorSignsUndefined | PagePlan.Signature |
