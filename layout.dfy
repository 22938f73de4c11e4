/** The layout decisions of the `/generate` handler (server.js) that sit
    between the form and the pages: which people get a credit line, where
    the photo grid puts each of them, how large an advert image may be,
    and what one advert contributes to its page. Drawing is not modelled:
    the result is a list of blocks standing for the drawing calls. */
module Layout {
  import opened Selection
  import opened Form

  /** Which uploaded files exist on disk and which of them the image
      decoder accepts. */
  datatype Env = Env(onDisk: set<string>, decodable: set<string>)

  /** Drawing the image at `path` succeeds. */
  predicate Loads(env: Env, path: string) {
    path in env.onDisk && path in env.decodable
  }

  /** A grid cell's picture: the person's photo, or the grey square. */
  datatype Picture = Photo(path: string) | GreySquare

  /** One person in the photo grid: the cell's top-left corner, the
      picture, and the name and role printed under it. */
  datatype Cell = Cell(x: real, y: real, picture: Picture, name: string, role: string)

  /** What the handler draws, in drawing order. */
  datatype Block =
    | Border(path: string)
    | Logo(path: string)
    | Image(path: string, fitWidth: real, fitHeight: real)
    | Line(text: string)
    | Note(text: string, width: Option<real>)
    | Separator
    | GridCell(cell: Cell)
    | CursorAt(y: real)

  // ---------------------------------------------------------------------
  // Credit lines

  /** `person.name && person.role`. */
  predicate Credited(p: Person) {
    Truthy(p.name) && Truthy(p.role)
  }

  function CreditLine(p: Person): string {
    Display(p.name) + " ....... " + Display(p.role)
  }

  /** The credit lines of `people`: one per credited person, in order. */
  function Credits(people: seq<Person>): (lines: seq<string>)
    ensures var p := Positions(people, Credited);
            |lines| == |p| && forall j :: 0 <= j < |p| ==> lines[j] == CreditLine(people[p[j]])
  {
    var p := Positions(people, Credited);
    seq(|p|, j requires 0 <= j < |p| => CreditLine(people[p[j]]))
  }

  lemma CreditsStep(people: seq<Person>, i: nat)
    requires i < |people|
    ensures Credits(people[..i + 1])
         == Credits(people[..i]) + (if Credited(people[i]) then [CreditLine(people[i])] else [])
  {
    PositionsStep(people, Credited, i);
    var a, b := Credits(people[..i + 1]), Credits(people[..i]);
    var p := Positions(people[..i], Credited);
    forall j | 0 <= j < |p|
      ensures a[j] == b[j]
    {
      assert people[..i + 1][p[j]] == people[..i][p[j]];
    }
  }

  /** A person without a name or without a role gets no line, and a
      people list with nobody credited prints nothing. */
  lemma UncreditedPeoplePrintNothing(people: seq<Person>)
    requires forall i :: 0 <= i < |people| ==> !Credited(people[i])
    ensures Credits(people) == []
  {
    PositionsEmpty(people, Credited);
  }

  /** The list-layout loop: a line for each credited person. */
  method CreditLines(people: seq<Person>) returns (lines: seq<string>)
    ensures lines == Credits(people)
    ensures |lines| <= |people|
  {
    lines := [];
    var i := 0;
    while i < |people|
      invariant i <= |people|
      invariant lines == Credits(people[..i])
    {
      CreditsStep(people, i);
      var person := people[i];
      if Truthy(person.name) && Truthy(person.role) {
        lines := lines + [Display(person.name) + " ....... " + Display(person.role)];
      }
      i := i + 1;
    }
    assert people[..i] == people;
  }

  // ---------------------------------------------------------------------
  // The photo grid

  const PhotoSize: real := 60.0
  const ColumnSpacing: real := 90.0
  const RowSpacing: real := 100.0
  const MaxColumns: nat := 3
  const GridClearance: real := 120.0

  /** `cast.some(p => p.photo)`. */
  predicate HasPhoto(p: Person) {
    p.photo.Some? && p.photo.value != ""
  }

  predicate AnyPhoto(cast: seq<Person>) {
    exists i :: 0 <= i < |cast| && HasPhoto(cast[i])
  }

  /** The grid replaces the list only when asked for and when at least one
      cast member has a photo. */
  predicate UsesGrid(b: Body, cast: seq<Person>) {
    b.creditsLayout == Some("grid") && AnyPhoto(cast)
  }

  /** The photo when it is on disk and loads, the grey square otherwise. */
  function CellPicture(p: Person, env: Env): Picture {
    if HasPhoto(p) && Loads(env, p.photo.value)
    then Photo(p.photo.value) else GreySquare
  }

  /** The cell of the k-th credited person (from 0): column k mod 3 of
      row k div 3. */
  function CellAt(k: nat, p: Person, env: Env, left: real, top: real): Cell {
    Cell(left + ColumnSpacing * ((k % MaxColumns) as real),
         top + RowSpacing * ((k / MaxColumns) as real),
         CellPicture(p, env), Display(p.name), Display(p.role))
  }

  /** The grid, scanning the cast in order: each credited person gets
      the next cell. */
  function GridCells(cast: seq<Person>, env: Env, left: real, top: real): seq<Cell>
    decreases |cast|
  {
    if cast == [] then []
    else
      var before := GridCells(cast[..|cast| - 1], env, left, top);
      var p := cast[|cast| - 1];
      before + (if Credited(p) then [CellAt(|before|, p, env, left, top)] else [])
  }

  /** The k-th credited person (from 0) gets the cell of column k mod 3
      in row k div 3, and nobody else gets a cell. */
  lemma {:induction false} GridPlacesCreditedInOrder(cast: seq<Person>, env: Env, left: real, top: real)
    ensures var p := Positions(cast, Credited);
            var cells := GridCells(cast, env, left, top);
            |cells| == |p| && forall k :: 0 <= k < |p| ==> cells[k] == CellAt(k, cast[p[k]], env, left, top)
    decreases |cast|
  {
    if cast != [] {
      var n := |cast| - 1;
      GridPlacesCreditedInOrder(cast[..n], env, left, top);
      PositionsStep(cast, Credited, n);
      assert cast[..n + 1] == cast;
      var before := GridCells(cast[..n], env, left, top);
      var pb := Positions(cast[..n], Credited);
      var cells := GridCells(cast, env, left, top);
      var p := Positions(cast, Credited);
      assert cells == before + (if Credited(cast[n]) then [CellAt(|before|, cast[n], env, left, top)] else []);
      assert p == pb + (if Credited(cast[n]) then [n] else []);
      forall k | 0 <= k < |p|
        ensures cells[k] == CellAt(k, cast[p[k]], env, left, top)
      {
        if k < |pb| {
          assert cells[k] == before[k] && p[k] == pb[k];
          assert cast[..n][pb[k]] == cast[pb[k]];
        }
      }
    }
  }

  /** Row and column arithmetic of the wrap: after n - 1 placements the
      column counter is (n - 1) mod 3 + 1; it wraps exactly when n is a
      multiple of 3, which starts row n div 3. */
  lemma WrapArithmetic(n: nat)
    requires n > 0
    ensures (n - 1) % MaxColumns + 1 >= MaxColumns ==> n % MaxColumns == 0 && n / MaxColumns == (n - 1) / MaxColumns + 1
    ensures (n - 1) % MaxColumns + 1 < MaxColumns ==> n % MaxColumns == (n - 1) % MaxColumns + 1 && n / MaxColumns == (n - 1) / MaxColumns
  {
  }

  /** Where the cursor is left after the grid: 120 below the last row's
      top, or below `top` when nobody was placed. */
  function GridEnd(count: nat, top: real): real {
    (if count == 0 then top else top + RowSpacing * (((count - 1) / MaxColumns) as real)) + GridClearance
  }

  /** The grid loop: walks the cast, places each credited person in the
      next cell and wraps to a new row after three columns; then moves the
      cursor below the last row. */
  method PlaceGrid(cast: seq<Person>, env: Env, left: real, top: real)
    returns (cells: seq<Cell>, cursorY: real)
    ensures cells == GridCells(cast, env, left, top)
    ensures var p := Positions(cast, Credited);
            |cells| == |p| && forall k :: 0 <= k < |p| ==> cells[k] == CellAt(k, cast[p[k]], env, left, top)
    ensures cursorY == GridEnd(|cells|, top)
  {
    var x, y := left, top;
    var col := 0;
    cells := [];
    ghost var placed: nat := 0;
    var i := 0;
    while i < |cast|
      invariant i <= |cast|
      invariant cells == GridCells(cast[..i], env, left, top) && |cells| == placed
      invariant col == if placed == 0 then 0 else (placed - 1) % MaxColumns + 1
      invariant y == top + RowSpacing * ((if placed == 0 then 0 else (placed - 1) / MaxColumns) as real)
      invariant x == left + ColumnSpacing * (col as real)
    {
      assert cast[..i + 1][..i] == cast[..i];
      var person := cast[i];
      if Truthy(person.name) && Truthy(person.role) {
        if placed > 0 {
          WrapArithmetic(placed);
        }
        if col >= MaxColumns {
          col := 0;
          x := left;
          y := y + RowSpacing;
        }
        assert col == placed % MaxColumns;
        assert y == top + RowSpacing * ((placed / MaxColumns) as real);
        var picture := if HasPhoto(person) && Loads(env, person.photo.value)
                       then Photo(person.photo.value) else GreySquare;
        cells := cells + [Cell(x, y, picture, Display(person.name), Display(person.role))];
        x := x + ColumnSpacing;
        col := col + 1;
        placed := placed + 1;
      }
      i := i + 1;
    }
    assert cast[..i] == cast;
    GridPlacesCreditedInOrder(cast, env, left, top);
    cursorY := y + GridClearance;
  }

  // ---------------------------------------------------------------------
  // Adverts

  /** The box an advert image is fitted into on a page `pageWidth` wide:
      the full text width for 'full', half of it less a gap for 'half',
      a third less two gaps otherwise; 80 high for 'quarter', else 120. */
  function AdvertFit(layout: Field, pageWidth: real): (fit: (real, real))
    ensures layout == Str("full") ==> fit.0 == pageWidth - 80.0
    ensures layout == Str("half") ==> fit.0 == (pageWidth - 100.0) / 2.0
    ensures layout != Str("full") && layout != Str("half") ==> fit.0 == (pageWidth - 120.0) / 3.0
    ensures fit.1 == if layout == Str("quarter") then 80.0 else 120.0
  {
    var width := if layout == Str("full") then pageWidth - 80.0
                 else if layout == Str("half") then (pageWidth - 100.0) / 2.0
                 else (pageWidth - 120.0) / 3.0;
    (width, if layout == Str("quarter") then 80.0 else 120.0)
  }

  /** The three widths tile the text width: two halves with one 20-point
      gap, or three thirds with two gaps, span exactly a full-width box;
      so on any page wider than 60 points full > half > third. */
  lemma AdvertWidthsTile(pageWidth: real)
    ensures var full := AdvertFit(Str("full"), pageWidth).0;
            var half := AdvertFit(Str("half"), pageWidth).0;
            var third := AdvertFit(Str("third"), pageWidth).0;
            2.0 * half + 20.0 == full && 3.0 * third + 40.0 == full
            && (pageWidth > 60.0 ==> full > half > third)
  {
  }

  /** What one advert draws: its title when it has one, then its image
      fitted to its layout when the file exists, or an error line when
      the image fails to load. */
  function AdvertBlocks(a: Advert, env: Env, pageWidth: real): (blocks: seq<Block>)
    ensures Truthy(a.title) <==> blocks != []
    ensures blocks != [] ==> blocks[0] == Line(Display(a.title)) && |blocks| <= 2
    ensures |blocks| == 2 <==>
              Truthy(a.title) && a.image.Some? && a.image.value != "" && a.image.value in env.onDisk
    ensures |blocks| == 2 ==>
              blocks[1] == if Loads(env, a.image.value)
                           then Image(a.image.value, AdvertFit(a.layout, pageWidth).0, AdvertFit(a.layout, pageWidth).1)
                           else Line("Error loading advert image")
  {
    if !Truthy(a.title) then []
    else
      [Line(Display(a.title))]
      + if a.image.Some? && a.image.value != "" && a.image.value in env.onDisk then
          var fit := AdvertFit(a.layout, pageWidth);
          if Loads(env, a.image.value) then [Image(a.image.value, fit.0, fit.1)]
          else [Line("Error loading advert image")]
        else []
  }

  /** The adverts section: each advert's blocks, in order. */
  function AdvertSection(ads: seq<Advert>, env: Env, pageWidth: real): seq<Block>
    decreases |ads|
  {
    if ads == [] then []
    else AdvertSection(ads[..|ads| - 1], env, pageWidth) + AdvertBlocks(ads[|ads| - 1], env, pageWidth)
  }

  /** Adverts without a title draw nothing at all. */
  lemma {:induction false} UntitledAdvertsDrawNothing(ads: seq<Advert>, env: Env, pageWidth: real)
    requires forall i :: 0 <= i < |ads| ==> !Truthy(ads[i].title)
    ensures AdvertSection(ads, env, pageWidth) == []
    decreases |ads|
  {
    if ads != [] {
      UntitledAdvertsDrawNothing(ads[..|ads| - 1], env, pageWidth);
    }
  }

  /** The adverts loop. */
  method DrawAdverts(ads: seq<Advert>, env: Env, pageWidth: real) returns (blocks: seq<Block>)
    ensures blocks == AdvertSection(ads, env, pageWidth)
  {
    blocks := [];
    var i := 0;
    while i < |ads|
      invariant i <= |ads|
      invariant blocks == AdvertSection(ads[..i], env, pageWidth)
    {
      assert ads[..i + 1][..i] == ads[..i];
      var advert := ads[i];
      if Truthy(advert.title) {
        var fit := AdvertFit(advert.layout, pageWidth);
        blocks := blocks + [Line(Display(advert.title))];
        if advert.image.Some? && advert.image.value != "" && advert.image.value in env.onDisk {
          if Loads(env, advert.image.value) {
            blocks := blocks + [Image(advert.image.value, fit.0, fit.1)];
          } else {
            blocks := blocks + [Line("Error loading advert image")];
          }
        }
      }
      i := i + 1;
    }
    assert ads[..i] == ads;
  }

  /** A lone advert submitted without a layout, as the handler builds it,
      is fitted to a third of the text width instead of the full width. */
  lemma LoneAdvertIsDrawnAtThirdWidth(b: Body, u: Uploads, pageWidth: real)
    requires b.advertTitleList == Absent && Truthy(b.advertTitle) && !b.advertTitle.List?
    requires b.advertLayoutList == Absent && b.advertLayout == Absent
    requires pageWidth > 60.0
    ensures var a := Adverts(b, u)[0];
            AdvertFit(a.layout, pageWidth).0 == (pageWidth - 120.0) / 3.0
            && AdvertFit(a.layout, pageWidth).0 < pageWidth - 80.0
  {
    LoneAdvertLosesFullLayout(b, u);
  }

  /** The corrected lone advert is fitted to the full text width. */
  lemma LoneAdvertIsDrawnAtFullWidth(b: Body, u: Uploads, pageWidth: real)
    requires !AdvertTitles(b).List? && Truthy(AdvertTitles(b))
    requires !Truthy(b.advertLayoutList) && !Truthy(b.advertLayout)
    ensures AdvertFit(CorrectedAdverts(b, u)[0].layout, pageWidth).0 == pageWidth - 80.0
  {
    LoneAdvertDefaultsToFull(b, u);
  }
}
