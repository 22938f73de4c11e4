/** The page sequence of the `/generate` handler (server.js): which pages
    the programme gets, in which order, and what is drawn on each. PDF
    drawing is replaced by blocks; the page size, the files on disk, the
    images that load and the cursor height where the cast list starts
    (which depends on font metrics) are inputs. */
module PagePlan {
  import opened Text
  import opened Form
  import opened Layout

  datatype PageKind =
    | FrontPage
    | CoverPage
    | TitlePage
    | SynopsisPage
    | CreditsPage
    | NotePage
    | AdvertsPage
    | PhotoPage(number: nat)

  /** A page and what is drawn on it, in drawing order. */
  datatype Page = Page(kind: PageKind, blocks: seq<Block>)

  /** The A5 page size the PDF library supplies, in points. */
  datatype PageSize = PageSize(width: real, height: real)

  /** The page margin the document is created with. */
  const Margin: real := 40.0

  /** The theme's border file exists but does not decode. The first
      `addThemedBorder()` call, on the front page, is outside any `try`,
      so the handler throws there and produces no programme at all. */
  predicate BorderBreaks(t: Theme, env: Env) {
    BorderPath(t) in env.onDisk && !Loads(env, BorderPath(t))
  }

  /** `addThemedBorder()` when it does not throw: the theme's border image
      when the file exists. */
  function BorderBlocks(t: Theme, env: Env): seq<Block> {
    if Loads(env, BorderPath(t)) then [Border(BorderPath(t))] else []
  }

  function Lines(lines: seq<string>): (r: seq<Block>)
    ensures |r| == |lines| && forall i :: 0 <= i < |lines| ==> r[i] == Line(lines[i])
  {
    seq(|lines|, i requires 0 <= i < |lines| => Line(lines[i]))
  }

  function GridBlocks(cells: seq<Cell>): (r: seq<Block>)
    ensures |r| == |cells| && forall i :: 0 <= i < |cells| ==> r[i] == GridCell(cells[i])
  {
    seq(|cells|, i requires 0 <= i < |cells| => GridCell(cells[i]))
  }

  /** The logo, when uploaded, on disk and loadable. */
  function LogoBlocks(u: Uploads, env: Env): seq<Block> {
    if u.logo.Some? && Loads(env, u.logo.value)
    then [Logo(u.logo.value)] else []
  }

  /** The title block: play name, date, venue, director, then the contact
      details when given. */
  function TitleBlocks(b: Body): seq<Block> {
    [Line(Or(b.playName, "Play Name")), Line(Or(b.date, "")), Line(Or(b.venue, "")),
     Line("Director: " + Or(b.director, ""))]
    + if Present(b.contactInfo)
      then [Separator, Line("Contact Information:"), Line(b.contactInfo.value)]
      else []
  }

  /** The overlay printed over the cover image. */
  function OverlayBlocks(b: Body): seq<Block> {
    [Line(Or(b.playName, "Play Name")), Line(Or(b.date, "") + " | " + Or(b.venue, ""))]
  }

  /** The director's signature as the handler writes it: `- ${director}`. */
  function SignatureAsWritten(director: Option<string>): string {
    "- " + if director.Some? then director.value else "undefined"
  }

  /** Without a director the handler signs the note "- undefined". */
  lemma MissingDirectorSignsUndefined()
    ensures SignatureAsWritten(None) == "- undefined"
  {
  }

  /** The signature with the `|| ''` fallback the title page uses for the
      same field: it agrees with the handler whenever a director is given
      and never prints "undefined". */
  function Signature(director: Option<string>): (s: string)
    ensures director.Some? ==> s == SignatureAsWritten(director)
    ensures director.None? ==> s == "- "
  {
    "- " + Or(director, "")
  }

  // ---------------------------------------------------------------------
  // The pages, one by one

  /** A cover page exists when a cover was uploaded and is on disk. */
  predicate CoverShown(u: Uploads, env: Env) {
    u.cover.Some? && u.cover.value in env.onDisk
  }

  function FirstPage(b: Body, u: Uploads, env: Env, border: seq<Block>): Page {
    Page(FrontPage, border + LogoBlocks(u, env) + if u.cover.None? then TitleBlocks(b) else [])
  }

  /** The cover page: the image fitted inside the margins, and the overlay
      after it when asked for; neither when the image fails to load. */
  function CoverPages(b: Body, u: Uploads, env: Env, size: PageSize, border: seq<Block>): seq<Page> {
    if !CoverShown(u, env) then []
    else
      var cover := u.cover.value;
      [Page(CoverPage, border + if Loads(env, cover) then
         [Image(cover, size.width - 80.0, size.height - 120.0)]
         + (if Present(b.overlayInfo) then OverlayBlocks(b) else [])
       else [])]
  }

  /** A separate title page exists when a cover file was named and the
      overlay is off, whether or not the cover is on disk. */
  function TitlePages(b: Body, u: Uploads, border: seq<Block>): seq<Page> {
    if u.cover.Some? && !Present(b.overlayInfo) then [Page(TitlePage, border + TitleBlocks(b))] else []
  }

  function SynopsisPageOf(b: Body, border: seq<Block>): Page {
    Page(SynopsisPage, border + [Line("Synopsis"), Separator, Line(Or(b.synopsis, ""))])
  }

  /** The cast in the photo grid, followed by the cursor move past it, or
      as credit lines. */
  function CastSection(b: Body, cast: seq<Person>, env: Env, castTop: real): seq<Block> {
    if UsesGrid(b, cast) then
      var cells := GridCells(cast, env, Margin, castTop);
      GridBlocks(cells) + [CursorAt(GridEnd(|cells|, castTop))]
    else Lines(Credits(cast))
  }

  function CreditsPageOf(b: Body, u: Uploads, env: Env, castTop: real, border: seq<Block>): Page {
    Page(CreditsPage,
         border + [Line("Cast & Crew"), Separator, Line("Cast:")]
         + CastSection(b, Cast(b, u), env, castTop)
         + [Line("Crew:")] + Lines(Credits(Crew(b))))
  }

  /** The director's photo, when uploaded, on disk and loadable. */
  function DirectorPhotoBlocks(u: Uploads, env: Env): seq<Block> {
    if u.directorPhoto.Some? && Loads(env, u.directorPhoto.value)
    then [Image(u.directorPhoto.value, 80.0, 80.0)] else []
  }

  /** The director's note page, when a note was given, signed with
      `signature`; the note is narrowed whenever a director photo was
      uploaded. */
  function NotePages(b: Body, u: Uploads, env: Env, size: PageSize, border: seq<Block>, signature: string): seq<Page> {
    if !Present(b.directorNote) then []
    else
      [Page(NotePage,
            border + [Line("Director's Note"), Separator] + DirectorPhotoBlocks(u, env)
            + [Note(b.directorNote.value, if u.directorPhoto.Some? then Some(size.width - 120.0) else None),
               Line(signature)])]
  }

  /** The adverts and sponsors page for the advert entries `ads`, when
      there is an entry (titled or not) or sponsor text. */
  function AdvertPages(b: Body, ads: seq<Advert>, env: Env, size: PageSize, border: seq<Block>): seq<Page> {
    if |ads| == 0 && !Present(b.sponsorInfo) then []
    else
      [Page(AdvertsPage,
            border + [Line("Adverts & Sponsors"), Separator] + AdvertSection(ads, env, size.width)
            + if Present(b.sponsorInfo) then [Line("Our Sponsors:"), Line(b.sponsorInfo.value)] else [])]
  }

  /** Extra photo number `i + 1` on a page of its own. */
  function PhotoPageAt(i: nat, path: string, env: Env, size: PageSize, border: seq<Block>): Page {
    Page(PhotoPage(i + 1),
         border + [Line("Photo " + NatToString(i + 1)),
                   if Loads(env, path) then Image(path, size.width - 80.0, size.height - 130.0)
                   else Line("Error displaying photo")])
  }

  function PhotoPages(photos: seq<string>, env: Env, size: PageSize, border: seq<Block>): (ps: seq<Page>)
    ensures |ps| == |photos|
    ensures forall i :: 0 <= i < |photos| ==> ps[i] == PhotoPageAt(i, photos[i], env, size, border)
  {
    seq(|photos|, i requires 0 <= i < |photos| => PhotoPageAt(i, photos[i], env, size, border))
  }

  lemma PhotoPagesStep(photos: seq<string>, env: Env, size: PageSize, border: seq<Block>, i: nat)
    requires i < |photos|
    ensures PhotoPages(photos[..i + 1], env, size, border)
         == PhotoPages(photos[..i], env, size, border) + [PhotoPageAt(i, photos[i], env, size, border)]
  {
  }

  /** The programme page by page, for a given signature line and given
      advert entries. */
  function Sections(b: Body, u: Uploads, env: Env, size: PageSize, castTop: real,
                    signature: string, ads: seq<Advert>): seq<Page>
  {
    var border := BorderBlocks(ResolveTheme(b.theme), env);
    [FirstPage(b, u, env, border)]
    + CoverPages(b, u, env, size, border)
    + TitlePages(b, u, border)
    + [SynopsisPageOf(b, border), CreditsPageOf(b, u, env, castTop, border)]
    + NotePages(b, u, env, size, border, signature)
    + AdvertPages(b, ads, env, size, border)
    + PhotoPages(u.photos, env, size, border)
  }

  /** The programme the handler produces when its border draws. */
  function Programme(b: Body, u: Uploads, env: Env, size: PageSize, castTop: real): seq<Page> {
    Sections(b, u, env, size, castTop, SignatureAsWritten(b.director), Adverts(b, u))
  }

  /** The programme with the signature fallback and the lone-advert
      layout fallback corrected. */
  function CorrectedProgramme(b: Body, u: Uploads, env: Env, size: PageSize, castTop: real): seq<Page> {
    Sections(b, u, env, size, castTop, Signature(b.director), CorrectedAdverts(b, u))
  }

  /** The corrections change nothing when a director is named and the
      adverts are not a lone title without a layout. */
  lemma CorrectedProgrammeAgreesElsewhere(b: Body, u: Uploads, env: Env, size: PageSize, castTop: real)
    requires b.director.Some?
    requires AdvertTitles(b).List? || !Truthy(AdvertTitles(b))
             || Truthy(b.advertLayoutList) || Truthy(b.advertLayout)
    ensures CorrectedProgramme(b, u, env, size, castTop) == Programme(b, u, env, size, castTop)
  {
    CorrectedAdvertsDifferOnlyInLoneLayout(b, u);
  }

  /** A director's note without a director ends with "- undefined" as
      written and with "- " once corrected. */
  lemma UnsignedNoteEndings(b: Body, u: Uploads, env: Env, size: PageSize, border: seq<Block>)
    requires Present(b.directorNote) && b.director.None?
    ensures var asWritten := NotePages(b, u, env, size, border, SignatureAsWritten(b.director))[0].blocks;
            var corrected := NotePages(b, u, env, size, border, Signature(b.director))[0].blocks;
            asWritten[|asWritten| - 1] == Line("- undefined")
            && corrected[|corrected| - 1] == Line("- ")
  {
  }

  // ---------------------------------------------------------------------
  // The handler

  /** Drawing `blocks` on a page, below what is already there. */
  function DrawOn(page: Page, blocks: seq<Block>): Page {
    page.(blocks := page.blocks + blocks)
  }

  /** The first page, the cover page and the title block. The title goes
      on the page current at that point: the first page when no cover was
      named, otherwise a title page of its own. */
  method OpeningPages(b: Body, u: Uploads, env: Env, size: PageSize, border: seq<Block>)
    returns (pages: seq<Page>)
    ensures pages == [FirstPage(b, u, env, border)] + CoverPages(b, u, env, size, border) + TitlePages(b, u, border)
  {
    var done: seq<Page> := [];
    var page := Page(FrontPage, border);
    if u.logo.Some? && Loads(env, u.logo.value) {
      page := DrawOn(page, [Logo(u.logo.value)]);
    }
    assert page == Page(FrontPage, border + LogoBlocks(u, env));

    if u.cover.Some? && u.cover.value in env.onDisk {
      done, page := done + [page], Page(CoverPage, border);
      if Loads(env, u.cover.value) {
        page := DrawOn(page, [Image(u.cover.value, size.width - 80.0, size.height - 120.0)]);
        if Present(b.overlayInfo) {
          page := DrawOn(page, OverlayBlocks(b));
        }
        assert page.blocks == border + ([Image(u.cover.value, size.width - 80.0, size.height - 120.0)]
                                        + if Present(b.overlayInfo) then OverlayBlocks(b) else []);
      } else {
        assert page.blocks == border + [];
      }
      assert [page] == CoverPages(b, u, env, size, border);
    }

    ghost var front := Page(FrontPage, border + LogoBlocks(u, env));
    assert u.cover.Some? ==> FirstPage(b, u, env, border) == front;
    assert done + [page] == [front] + CoverPages(b, u, env, size, border);

    if u.cover.None? || !Present(b.overlayInfo) {
      if u.cover.Some? {
        done, page := done + [page], Page(TitlePage, border);
      }
      page := DrawOn(page, TitleBlocks(b));
    }
    pages := done + [page];
  }

  /** The cast and crew page. */
  method CreditsPageFor(b: Body, u: Uploads, env: Env, castTop: real, border: seq<Block>)
    returns (page: Page)
    ensures page == CreditsPageOf(b, u, env, castTop, border)
  {
    var cast := Cast(b, u);
    page := Page(CreditsPage, border);
    page := DrawOn(page, [Line("Cast & Crew"), Separator, Line("Cast:")]);
    ghost var heading := page.blocks;
    if b.creditsLayout == Some("grid") && AnyPhoto(cast) {
      var cells, cursorY := PlaceGrid(cast, env, Margin, castTop);
      page := DrawOn(page, GridBlocks(cells) + [CursorAt(cursorY)]);
    } else {
      var lines := CreditLines(cast);
      page := DrawOn(page, Lines(lines));
    }
    assert page.blocks == heading + CastSection(b, cast, env, castTop);
    page := DrawOn(page, [Line("Crew:")]);
    var crewLines := CreditLines(Crew(b));
    page := DrawOn(page, Lines(crewLines));
  }

  /** The director's note page, when there is a note. */
  method NotePagesFor(b: Body, u: Uploads, env: Env, size: PageSize, border: seq<Block>)
    returns (pages: seq<Page>)
    ensures pages == NotePages(b, u, env, size, border, SignatureAsWritten(b.director))
  {
    pages := [];
    if Present(b.directorNote) {
      var page := Page(NotePage, border);
      page := DrawOn(page, [Line("Director's Note"), Separator]);
      if u.directorPhoto.Some? && Loads(env, u.directorPhoto.value) {
        page := DrawOn(page, [Image(u.directorPhoto.value, 80.0, 80.0)]);
      }
      assert page.blocks == border + [Line("Director's Note"), Separator] + DirectorPhotoBlocks(u, env);
      page := DrawOn(page, [Note(b.directorNote.value, if u.directorPhoto.Some? then Some(size.width - 120.0) else None),
                            Line(SignatureAsWritten(b.director))]);
      pages := [page];
    }
  }

  /** The adverts and sponsors page, when there is anything to put on it. */
  method AdvertPagesFor(b: Body, u: Uploads, env: Env, size: PageSize, border: seq<Block>)
    returns (pages: seq<Page>)
    ensures pages == AdvertPages(b, Adverts(b, u), env, size, border)
  {
    var adverts := Adverts(b, u);
    pages := [];
    if |adverts| > 0 || Present(b.sponsorInfo) {
      var page := Page(AdvertsPage, border);
      page := DrawOn(page, [Line("Adverts & Sponsors"), Separator]);
      ghost var heading := page.blocks;
      if |adverts| > 0 {
        var blocks := DrawAdverts(adverts, env, size.width);
        page := DrawOn(page, blocks);
      }
      assert page.blocks == heading + AdvertSection(adverts, env, size.width);
      if Present(b.sponsorInfo) {
        page := DrawOn(page, [Line("Our Sponsors:"), Line(b.sponsorInfo.value)]);
      }
      assert page.blocks == heading + AdvertSection(adverts, env, size.width)
        + if Present(b.sponsorInfo) then [Line("Our Sponsors:"), Line(b.sponsorInfo.value)] else [];
      pages := [page];
    }
  }

  /** One page per additional photo, numbered from 1; a photo that does
      not load leaves an error line instead of the image. */
  method PhotoPagesFor(photos: seq<string>, env: Env, size: PageSize, border: seq<Block>)
    returns (pages: seq<Page>)
    ensures pages == PhotoPages(photos, env, size, border)
  {
    pages := [];
    var i := 0;
    while i < |photos|
      invariant i <= |photos|
      invariant pages == PhotoPages(photos[..i], env, size, border)
    {
      PhotoPagesStep(photos, env, size, border, i);
      var path := photos[i];
      var page := Page(PhotoPage(i + 1), border);
      page := DrawOn(page, [Line("Photo " + NatToString(i + 1))]);
      if Loads(env, path) {
        page := DrawOn(page, [Image(path, size.width - 80.0, size.height - 130.0)]);
      } else {
        page := DrawOn(page, [Line("Error displaying photo")]);
      }
      assert page == PhotoPageAt(i, path, env, size, border);
      pages := pages + [page];
      i := i + 1;
    }
    assert photos[..i] == photos;
  }

  /** The `/generate` handler from the parsed request to the finished
      page sequence, section by section in the handler's order. It
      produces nothing when the theme's border file does not decode. */
  method Generate(b: Body, u: Uploads, env: Env, size: PageSize, castTop: real)
    returns (result: Option<seq<Page>>)
    ensures result.None? <==> BorderBreaks(ResolveTheme(b.theme), env)
    ensures result.Some? ==> result.value == Programme(b, u, env, size, castTop)
  {
    var theme := ResolveTheme(b.theme);
    if BorderPath(theme) in env.onDisk && !Loads(env, BorderPath(theme)) {
      // the front page's border throws out of the handler
      return None;
    }
    var border := BorderBlocks(theme, env);
    var pages := OpeningPages(b, u, env, size, border);
    var synopsis := DrawOn(Page(SynopsisPage, border), [Line("Synopsis"), Separator, Line(Or(b.synopsis, ""))]);
    var credits := CreditsPageFor(b, u, env, castTop, border);
    pages := pages + [synopsis, credits];
    var note := NotePagesFor(b, u, env, size, border);
    pages := pages + note;
    var adverts := AdvertPagesFor(b, u, env, size, border);
    pages := pages + adverts;
    var photos := PhotoPagesFor(u.photos, env, size, border);
    pages := pages + photos;
    return Some(pages);
  }

  // ---------------------------------------------------------------------
  // Properties of the page sequence

  function Kinds(pages: seq<Page>): (ks: seq<PageKind>)
    ensures |ks| == |pages| && forall i :: 0 <= i < |pages| ==> ks[i] == pages[i].kind
  {
    seq(|pages|, i requires 0 <= i < |pages| => pages[i].kind)
  }

  /** The numbered photo pages, `Photo 1` to `Photo n`. */
  function PhotoKinds(n: nat): (ks: seq<PageKind>)
    ensures |ks| == n && forall i :: 0 <= i < n ==> ks[i] == PhotoPage(i + 1)
  {
    seq(n, i requires 0 <= i < n => PhotoPage(i + 1))
  }

  /** The pages in order: the first page; a cover page when the cover is
      on disk; a title page when a cover was named and the overlay is off;
      always synopsis and credits; the director's note when given; the
      adverts page when there are adverts or sponsors; one page per extra
      photo, numbered from 1. */
  lemma PageOrder(b: Body, u: Uploads, env: Env, size: PageSize, castTop: real)
    ensures Kinds(Programme(b, u, env, size, castTop))
         == [FrontPage]
            + (if CoverShown(u, env) then [CoverPage] else [])
            + (if u.cover.Some? && !Present(b.overlayInfo) then [TitlePage] else [])
            + [SynopsisPage, CreditsPage]
            + (if Present(b.directorNote) then [NotePage] else [])
            + (if |Adverts(b, u)| > 0 || Present(b.sponsorInfo) then [AdvertsPage] else [])
            + PhotoKinds(|u.photos|)
  {
    var border := BorderBlocks(ResolveTheme(b.theme), env);
    var f, c, t := [FirstPage(b, u, env, border)], CoverPages(b, u, env, size, border), TitlePages(b, u, border);
    var m := [SynopsisPageOf(b, border), CreditsPageOf(b, u, env, castTop, border)];
    var n := NotePages(b, u, env, size, border, SignatureAsWritten(b.director));
    var a, p := AdvertPages(b, Adverts(b, u), env, size, border), PhotoPages(u.photos, env, size, border);
    assert Programme(b, u, env, size, castTop) == f + c + t + m + n + a + p;
    assert Kinds(c) == if CoverShown(u, env) then [CoverPage] else [];
    assert Kinds(t) == if u.cover.Some? && !Present(b.overlayInfo) then [TitlePage] else [];
    assert Kinds(n) == if Present(b.directorNote) then [NotePage] else [];
    assert Kinds(a) == if |Adverts(b, u)| > 0 || Present(b.sponsorInfo) then [AdvertsPage] else [];
    assert Kinds(p) == PhotoKinds(|u.photos|);
    assert Kinds(f) == [FrontPage] && Kinds(m) == [SynopsisPage, CreditsPage];
    KindsOfSections(f, c, t, m, n, a, p);
  }

  lemma KindsOfSections(f: seq<Page>, c: seq<Page>, t: seq<Page>, m: seq<Page>,
                        n: seq<Page>, a: seq<Page>, p: seq<Page>)
    ensures Kinds(f + c + t + m + n + a + p)
         == Kinds(f) + Kinds(c) + Kinds(t) + Kinds(m) + Kinds(n) + Kinds(a) + Kinds(p)
  {
    KindsDistributes(f, c);
    KindsDistributes(f + c, t);
    KindsDistributes(f + c + t, m);
    KindsDistributes(f + c + t + m, n);
    KindsDistributes(f + c + t + m + n, a);
    KindsDistributes(f + c + t + m + n + a, p);
  }

  lemma KindsDistributes(a: seq<Page>, b: seq<Page>)
    ensures Kinds(a + b) == Kinds(a) + Kinds(b)
  {
  }

  /** Pages after the first: one for a cover on disk, one more for a
      named cover without overlay, two always, one for a note, one for
      adverts or sponsors, and one per extra photo. */
  lemma PageCount(b: Body, u: Uploads, env: Env, size: PageSize, castTop: real)
    ensures |Programme(b, u, env, size, castTop)|
         == 1 + (if CoverShown(u, env) then 1 else 0)
              + (if u.cover.Some? && !Present(b.overlayInfo) then 1 else 0)
              + 2
              + (if Present(b.directorNote) then 1 else 0)
              + (if |Adverts(b, u)| > 0 || Present(b.sponsorInfo) then 1 else 0)
              + |u.photos|
  {
  }

  /** Extra photo i (from 0) is on the i-th page from the end's photo
      block, titled `Photo i+1`. */
  lemma PhotoPagesAreNumbered(b: Body, u: Uploads, env: Env, size: PageSize, castTop: real, i: nat)
    requires i < |u.photos|
    ensures var pages := Programme(b, u, env, size, castTop);
            var page := pages[|pages| - |u.photos| + i];
            page.kind == PhotoPage(i + 1) && Line("Photo " + NatToString(i + 1)) in page.blocks
  {
    var border := BorderBlocks(ResolveTheme(b.theme), env);
    var pages := Programme(b, u, env, size, castTop);
    var photos := PhotoPages(u.photos, env, size, border);
    var before := [FirstPage(b, u, env, border)]
                  + CoverPages(b, u, env, size, border)
                  + TitlePages(b, u, border)
                  + [SynopsisPageOf(b, border), CreditsPageOf(b, u, env, castTop, border)]
                  + NotePages(b, u, env, size, border, SignatureAsWritten(b.director))
                  + AdvertPages(b, Adverts(b, u), env, size, border);
    assert pages == before + photos;
    assert |pages| - |u.photos| + i == |before| + i;
    assert pages[|before| + i] == photos[i];
    var page := photos[i];
    assert page.blocks[|border|] == Line("Photo " + NatToString(i + 1));
  }

  /** A named cover that is missing from disk, with the overlay on, leaves
      the programme without a cover page and without any title block: the
      first page holds only the border and the logo. */
  lemma MissingCoverWithOverlayLosesTitle(b: Body, u: Uploads, env: Env, size: PageSize, castTop: real)
    requires u.cover.Some? && u.cover.value !in env.onDisk && Present(b.overlayInfo)
    ensures var pages := Programme(b, u, env, size, castTop);
            pages[0].blocks == BorderBlocks(ResolveTheme(b.theme), env) + LogoBlocks(u, env)
            && pages[1].kind == SynopsisPage
  {
  }
}
