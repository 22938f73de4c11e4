/** The request side of the `/generate` handler (server.js): the form
    fields as JavaScript sees them, their truthiness, the cast, crew and
    advert records built from them, and the theme lookup. */
module Form {
  import opened Text

  datatype Option<T> = None | Some(value: T)

  /** A repeated form field as the body parser delivers it: missing, one
      string, or a list of strings. */
  datatype Field = Absent | Str(s: string) | List(items: seq<string>)

  /** JavaScript truthiness: an empty string is falsy, a list never is. */
  predicate Truthy(f: Field) {
    match f
    case Absent => false
    case Str(s) => s != ""
    case List(_) => true
  }

  /** Truthiness of a single-valued field. */
  predicate Present(o: Option<string>) {
    o.Some? && o.value != ""
  }

  /** `o || fallback` for a single-valued field. */
  function Or(o: Option<string>, fallback: string): string {
    if Present(o) then o.value else fallback
  }

  /** `a || b || last`. */
  function FirstTruthy(a: Field, b: Field, last: Field): Field {
    if Truthy(a) then a else if Truthy(b) then b else last
  }

  /** `f[i]`: the i-th list element, the i-th character of a string (as
      a one-character string), or undefined. */
  function ItemAt(f: Field, i: nat): Option<string> {
    match f
    case Absent => None
    case Str(s) => if i < |s| then Some([s[i]]) else None
    case List(items) => if i < |items| then Some(items[i]) else None
  }

  /** `f[i] || fallback`. */
  function ItemOr(f: Field, i: nat, fallback: string): (s: string)
    ensures f.List? && i < |f.items| && f.items[i] != "" ==> s == f.items[i]
    ensures f.List? && (i >= |f.items| || f.items[i] == "") ==> s == fallback
    ensures f.Str? && i < |f.s| ==> s == [f.s[i]]
  {
    Or(ItemAt(f, i), fallback)
  }

  /** The text a template literal makes of a field: a list is joined
      with commas, a missing value reads "undefined". */
  function Display(f: Field): string {
    match f
    case Absent => "undefined"
    case Str(s) => s
    case List(items) => Join(items, ",")
  }

  /** The single-valued fields of the request body, and the field pairs
      (`name[]` and `name`) the handler reads as lists. */
  datatype Body = Body(
    theme: Option<string>,
    playName: Option<string>,
    date: Option<string>,
    venue: Option<string>,
    synopsis: Option<string>,
    director: Option<string>,
    contactInfo: Option<string>,
    directorNote: Option<string>,
    sponsorInfo: Option<string>,
    creditsLayout: Option<string>,
    overlayInfo: Option<string>,
    castNameList: Field, castName: Field,
    castRoleList: Field, castRole: Field,
    crewNameList: Field, crewName: Field,
    crewRoleList: Field, crewRole: Field,
    advertTitleList: Field, advertTitle: Field,
    advertLayoutList: Field, advertLayout: Field)

  /** The stored paths of the uploaded files, per upload field. */
  datatype Uploads = Uploads(
    logo: Option<string>,
    cover: Option<string>,
    directorPhoto: Option<string>,
    photos: seq<string>,
    castPhotos: seq<string>,
    advertImages: seq<string>)

  /** A cast or crew entry. In the list case the name and role are
      strings; otherwise they are the raw field values. */
  datatype Person = Person(name: Field, role: Field, photo: Option<string>)

  /** An advert entry. */
  datatype Advert = Advert(title: Field, layout: Field, image: Option<string>)

  /** `files[i] ? files[i].path : null`. */
  function PathAt(paths: seq<string>, i: nat): Option<string> {
    if i < |paths| then Some(paths[i]) else None
  }

  /** The list fields after `a[] || a || []`. */
  function CastNames(b: Body): Field { FirstTruthy(b.castNameList, b.castName, List([])) }
  function CastRoles(b: Body): Field { FirstTruthy(b.castRoleList, b.castRole, List([])) }
  function CrewNames(b: Body): Field { FirstTruthy(b.crewNameList, b.crewName, List([])) }
  function CrewRoles(b: Body): Field { FirstTruthy(b.crewRoleList, b.crewRole, List([])) }
  function AdvertTitles(b: Body): Field { FirstTruthy(b.advertTitleList, b.advertTitle, List([])) }
  function AdvertLayouts(b: Body): Field { FirstTruthy(b.advertLayoutList, b.advertLayout, List([])) }

  /** The fallback `[]` makes every one of these fields truthy. */
  lemma ListFieldsAreTruthy(b: Body)
    ensures Truthy(CastNames(b)) && Truthy(CastRoles(b)) && Truthy(AdvertLayouts(b))
    ensures Truthy(CrewNames(b)) && Truthy(CrewRoles(b)) && Truthy(AdvertTitles(b))
  {
  }

  /** Pairs names with roles by position: a list of names gives one
      entry per name, with the role at the same position or '' when it is
      missing or empty; a lone name gives one entry with the raw roles. */
  function People(names: Field, roles: Field, photos: seq<string>): (ps: seq<Person>)
    ensures names.List? ==> |ps| == |names.items|
    ensures names.List? ==> forall i :: 0 <= i < |ps| ==>
              ps[i].name == Str(names.items[i]) && ps[i].role == Str(ItemOr(roles, i, ""))
              && ps[i].photo == PathAt(photos, i)
    ensures !names.List? ==> ps == [Person(names, roles, PathAt(photos, 0))]
  {
    if names.List? then
      seq(|names.items|, i requires 0 <= i < |names.items| =>
        Person(Str(names.items[i]), Str(ItemOr(roles, i, "")), PathAt(photos, i)))
    else
      [Person(names, roles, PathAt(photos, 0))]
  }

  function Cast(b: Body, u: Uploads): seq<Person> {
    People(CastNames(b), CastRoles(b), u.castPhotos)
  }

  /** Crew entries carry no photo. */
  function Crew(b: Body): seq<Person> {
    People(CrewNames(b), CrewRoles(b), [])
  }

  /** With role lists at least as long as the name list, every entry gets
      its own role exactly, unless that role is empty. */
  lemma RolesPairWithNames(names: seq<string>, roles: seq<string>, photos: seq<string>, i: nat)
    requires i < |names|
    ensures var ps := People(List(names), List(roles), photos);
            i < |ps| && ps[i].name == Str(names[i])
            && ps[i].role == Str(if i < |roles| then roles[i] else "")
  {
  }

  /** Advert entries as the handler builds them: a title list gives one
      advert per title, its layout defaulting to 'full'; a lone truthy
      title gives one advert whose layout is `layouts || 'full'`, where
      `layouts` has already fallen back to `[]`; no title gives none. */
  function AdvertsAsWritten(titles: Field, layouts: Field, images: seq<string>): (ads: seq<Advert>)
    ensures titles.List? ==> |ads| == |titles.items|
    ensures titles.List? ==> forall i :: 0 <= i < |ads| ==>
              ads[i] == Advert(Str(titles.items[i]), Str(ItemOr(layouts, i, "full")), PathAt(images, i))
    ensures !titles.List? && Truthy(titles) ==> |ads| == 1 && ads[0].title == titles
    ensures !titles.List? && !Truthy(titles) ==> ads == []
  {
    if titles.List? then
      seq(|titles.items|, i requires 0 <= i < |titles.items| =>
        Advert(Str(titles.items[i]), Str(ItemOr(layouts, i, "full")), PathAt(images, i)))
    else if Truthy(titles) then
      [Advert(titles, if Truthy(layouts) then layouts else Str("full"), PathAt(images, 0))]
    else
      []
  }

  /** A lone advert title submitted without any layout keeps the `[]`
      fallback as its layout instead of 'full'. */
  lemma LoneAdvertLosesFullLayout(b: Body, u: Uploads)
    requires b.advertTitleList == Absent && Truthy(b.advertTitle) && !b.advertTitle.List?
    requires b.advertLayoutList == Absent && b.advertLayout == Absent
    ensures var ads := AdvertsAsWritten(AdvertTitles(b), AdvertLayouts(b), u.advertImages);
            |ads| == 1 && ads[0].layout == List([]) && ads[0].layout != Str("full")
  {
  }

  /** The advert entries the handler builds from the request. */
  function Adverts(b: Body, u: Uploads): seq<Advert> {
    AdvertsAsWritten(AdvertTitles(b), AdvertLayouts(b), u.advertImages)
  }

  /** The advert entries with the 'full' fallback applied to the layout
      field as submitted, which is what the lone-title branch intends. */
  function CorrectedAdverts(b: Body, u: Uploads): (ads: seq<Advert>)
    ensures AdvertTitles(b).List? ==> ads == Adverts(b, u)
    ensures !AdvertTitles(b).List? && Truthy(AdvertTitles(b)) ==>
              |ads| == 1 && ads[0].title == AdvertTitles(b)
              && ads[0].layout == FirstTruthy(b.advertLayoutList, b.advertLayout, Str("full"))
    ensures !Truthy(AdvertTitles(b)) ==> ads == []
  {
    var titles := AdvertTitles(b);
    if titles.List? then AdvertsAsWritten(titles, AdvertLayouts(b), u.advertImages)
    else if Truthy(titles) then
      [Advert(titles, FirstTruthy(b.advertLayoutList, b.advertLayout, Str("full")), PathAt(u.advertImages, 0))]
    else []
  }

  /** With no layout submitted, the corrected lone advert is 'full'. */
  lemma LoneAdvertDefaultsToFull(b: Body, u: Uploads)
    requires !AdvertTitles(b).List? && Truthy(AdvertTitles(b))
    requires !Truthy(b.advertLayoutList) && !Truthy(b.advertLayout)
    ensures CorrectedAdverts(b, u) == [Advert(AdvertTitles(b), Str("full"), PathAt(u.advertImages, 0))]
  {
  }

  /** The correction changes nothing but the layout of a lone advert
      submitted without any layout: it keeps the number of adverts, and
      in every other case the two agree entry for entry. */
  lemma CorrectedAdvertsDifferOnlyInLoneLayout(b: Body, u: Uploads)
    ensures |CorrectedAdverts(b, u)| == |Adverts(b, u)|
    ensures forall i :: 0 <= i < |Adverts(b, u)| ==>
              CorrectedAdverts(b, u)[i].title == Adverts(b, u)[i].title
              && CorrectedAdverts(b, u)[i].image == Adverts(b, u)[i].image
    ensures AdvertTitles(b).List? || !Truthy(AdvertTitles(b))
            || Truthy(b.advertLayoutList) || Truthy(b.advertLayout)
            ==> CorrectedAdverts(b, u) == Adverts(b, u)
  {
  }

  // ---------------------------------------------------------------------
  // Themes

  /** The keys of the theme table; colours, fonts and accents are
      configuration and not modelled. */
  datatype Theme = Classic | Fairy | Forest | Arabian | Spy | Drama

  function ThemeName(t: Theme): string {
    match t
    case Classic => "classic"
    case Fairy => "fairy"
    case Forest => "forest"
    case Arabian => "arabian"
    case Spy => "spy"
    case Drama => "drama"
  }

  /** `themes[name]`, for the table's own keys. */
  function ThemeTable(name: string): (t: Option<Theme>)
    ensures t.Some? ==> ThemeName(t.value) == name
  {
    if name == "classic" then Some(Classic)
    else if name == "fairy" then Some(Fairy)
    else if name == "forest" then Some(Forest)
    else if name == "arabian" then Some(Arabian)
    else if name == "spy" then Some(Spy)
    else if name == "drama" then Some(Drama)
    else None
  }

  /** Every theme is found under its own name, so the table and the names
      agree both ways. */
  lemma {:induction false} ThemeTableFindsEveryTheme(t: Theme)
    ensures ThemeTable(ThemeName(t)) == Some(t)
  {
    match t
    case Classic =>
    case Fairy =>
    case Forest =>
    case Arabian =>
    case Spy =>
    case Drama =>
  }

  /** `theme = 'classic'` then `themes[theme] || themes.classic`. */
  function ResolveTheme(theme: Option<string>): (t: Theme)
    ensures theme.None? ==> t == Classic
    ensures theme.Some? && ThemeTable(theme.value).None? ==> t == Classic
    ensures theme.Some? && ThemeTable(theme.value).Some? ==> ThemeName(t) == theme.value
  {
    var name := if theme.Some? then theme.value else "classic";
    match ThemeTable(name)
    case Some(found) => found
    case None => Classic
  }

  /** Naming a theme selects it; anything else selects classic. */
  lemma ResolveThemeByName(name: string)
    ensures (exists t :: ThemeName(t) == name) ==> ThemeName(ResolveTheme(Some(name))) == name
    ensures (forall t :: ThemeName(t) != name) ==> ResolveTheme(Some(name)) == Classic
  {
    if exists t :: ThemeName(t) == name {
      var t :| ThemeName(t) == name;
      ThemeTableFindsEveryTheme(t);
    }
  }

  /** The border image of a theme, relative to the application directory. */
  function BorderPath(t: Theme): string {
    "public/theme-assets/" + ThemeName(t) + "-border.png"
  }
}
