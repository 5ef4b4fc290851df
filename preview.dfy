/** The public portfolio page: the fetch of a portfolio by username, the choice
    of screen, and the presentation decisions derived from the document
    (spacing, hero background, about layout, contact rows, tints, palette) and
    the name of the exported file. */
module Preview {
  import opened Js
  import opened Document

  // ---------------------------------------------------------------------
  // Fetching
  // ---------------------------------------------------------------------

  const ApiBase := "http://localhost:5000/api/portfolios/public/"

  /** What the HTTP request yields: a response body, or a thrown request error
      with the server's `response.data.message` (if any) and its own `message`. */
  datatype FetchResult =
    | Response(portfolio: Option<Portfolio>, projects: Option<seq<Project>>)
    | RequestFailed(serverMessage: Field, message: Field)

  datatype Outcome = Loaded(portfolio: Portfolio, projects: seq<Project>) | Failed(message: string)

  /** `error.response?.data?.message || error.message || 'Failed to load portfolio'` */
  function ErrorMessage(serverMessage: Field, message: Field): (r: string)
    ensures r != ""
    ensures Truthy(serverMessage) ==> r == serverMessage.value
    ensures !Truthy(serverMessage) && Truthy(message) ==> r == message.value
    ensures !Truthy(serverMessage) && !Truthy(message) ==> r == "Failed to load portfolio"
  {
    Or(OrElse(serverMessage, message), "Failed to load portfolio").value
  }

  /** How a completed request ends. A body without a portfolio throws an error
      of its own, which carries no server response. */
  function Classify(result: FetchResult): (o: Outcome)
    ensures o.Loaded? <==> result.Response? && result.portfolio.Some?
    ensures o.Loaded? ==> o.portfolio == result.portfolio.value
    ensures o.Loaded? && result.projects.Some? ==> o.projects == result.projects.value
    ensures o.Loaded? && result.projects.None? ==> o.projects == []
    ensures result.Response? && result.portfolio.None? ==> o == Failed("Portfolio data not found")
    ensures result.RequestFailed? ==> o == Failed(ErrorMessage(result.serverMessage, result.message))
    ensures o.Failed? ==> o.message != ""
  {
    match result
    case Response(portfolio, projects) =>
      if portfolio.None? then Failed(ErrorMessage(Absent, Text("Portfolio data not found")))
      else Loaded(portfolio.value, projects.GetOr([]))
    case RequestFailed(serverMessage, message) =>
      Failed(ErrorMessage(serverMessage, message))
  }

  // ---------------------------------------------------------------------
  // Presentation decisions
  // ---------------------------------------------------------------------

  /** The vertical padding class of every section; `None` is no class. */
  function SpacingClass(spacing: Field): (r: Option<string>)
    ensures spacing == Text("compact") ==> r == Some("py-12")
    ensures spacing == Text("spacious") ==> r == Some("py-32")
    ensures spacing == Text("comfortable") || !Truthy(spacing) ==> r == Some("py-20")
    ensures r.None? <==> Truthy(spacing) && spacing.value !in {"comfortable", "compact", "spacious"}
  {
    var key := Or(spacing, "comfortable").value;
    if key == "comfortable" then Some("py-20")
    else if key == "compact" then Some("py-12")
    else if key == "spacious" then Some("py-32")
    else None
  }

  /** Colours switched wholesale by the theme. */
  datatype Palette = Palette(page: string, text: string, body: string, band: string, card: string)

  const DarkPalette := Palette("#1a1a1a", "#ffffff", "#d1d5db", "#2d2d2d", "#1a1a1a")
  const LightPalette := Palette("#ffffff", "#000000", "#4b5563", "#f3f4f6", "#ffffff")

  function ThemePalette(theme: Field): (r: Palette)
    ensures r == DarkPalette <==> theme == Text("dark")
    ensures r == LightPalette <==> theme != Text("dark")
  {
    if theme == Text("dark") then DarkPalette else LightPalette
  }

  datatype Background = CoverImage(css: string) | SolidColor(color: string)

  /** The hero's background: the image when it is truthy, otherwise the theme's
      neutral colour. `hero.backgroundColor` is not an input. */
  function HeroBackground(backgroundImage: Field, theme: Field): (r: Background)
    ensures r.CoverImage? <==> Truthy(backgroundImage)
    ensures r.CoverImage? ==> r.css == "url(" + backgroundImage.value + ")"
    ensures r.SolidColor? ==> r.color == (if theme == Text("dark") then "#2d2d2d" else "#f3f4f6")
    ensures r.SolidColor? ==> r.color == ThemePalette(theme).band
  {
    if Truthy(backgroundImage) then CoverImage("url(" + backgroundImage.value + ")")
    else SolidColor(if theme == Text("dark") then "#2d2d2d" else "#f3f4f6")
  }

  datatype AboutLayout = ImageBesideText(image: string) | TextFullWidth

  /** Two columns (image, then text) exactly when the image is truthy; otherwise
      the text spans both columns. */
  function AboutLayoutFor(image: Field): (r: AboutLayout)
    ensures r.TextFullWidth? <==> !Truthy(image)
    ensures r.ImageBesideText? ==> Text(r.image) == image
  {
    if Truthy(image) then ImageBesideText(image.value) else TextFullWidth
  }

  datatype ContactKind = EmailLink | PhoneLink | LinkedInLink | GitHubLink

  datatype ContactLink = ContactLink(kind: ContactKind, href: string, caption: string)

  function ContactValue(c: Contact, k: ContactKind): Field {
    match k
    case EmailLink => c.email
    case PhoneLink => c.phone
    case LinkedInLink => c.linkedin
    case GitHubLink => c.github
  }

  /** The position of each kind in the contact grid. */
  function Rank(k: ContactKind): nat {
    match k
    case EmailLink => 0
    case PhoneLink => 1
    case LinkedInLink => 2
    case GitHubLink => 3
  }

  function Kinds(links: seq<ContactLink>): set<ContactKind> {
    if links == [] then {} else {links[0].kind} + Kinds(links[1..])
  }

  /** The grid entry for one contact method. */
  function LinkFor(c: Contact, k: ContactKind): ContactLink {
    var v := Interpolate(ContactValue(c, k));
    match k
    case EmailLink => ContactLink(k, "mailto:" + v, v)
    case PhoneLink => ContactLink(k, "tel:" + v, v)
    case LinkedInLink => ContactLink(k, v, "LinkedIn")
    case GitHubLink => ContactLink(k, v, "GitHub")
  }

  /** The entries of `kinds`, in that order, whose contact value is truthy. */
  function LinksOf(c: Contact, kinds: seq<ContactKind>): seq<ContactLink> {
    if kinds == [] then []
    else
      (if Truthy(ContactValue(c, kinds[0])) then [LinkFor(c, kinds[0])] else [])
      + LinksOf(c, kinds[1..])
  }

  predicate RankSorted(kinds: seq<ContactKind>) {
    forall i, j :: 0 <= i < j < |kinds| ==> Rank(kinds[i]) < Rank(kinds[j])
  }

  predicate LinksSorted(links: seq<ContactLink>) {
    forall i, j :: 0 <= i < j < |links| ==> Rank(links[i].kind) < Rank(links[j].kind)
  }

  /** `LinksOf` keeps exactly the kinds whose value is truthy. */
  lemma {:induction false} LinksOfKinds(c: Contact, kinds: seq<ContactKind>)
    ensures forall k :: k in Kinds(LinksOf(c, kinds)) <==> k in kinds && Truthy(ContactValue(c, k))
  {
    if kinds != [] {
      LinksOfKinds(c, kinds[1..]);
      var rest := LinksOf(c, kinds[1..]);
      var r := LinksOf(c, kinds);
      assert kinds == [kinds[0]] + kinds[1..];
      if Truthy(ContactValue(c, kinds[0])) {
        assert r[1..] == rest;
        assert Kinds(r) == {kinds[0]} + Kinds(rest);
      } else {
        assert r == rest;
      }
    }
  }

  /** Every entry of `LinksOf` is the link of its own kind. */
  lemma {:induction false} LinksOfEntries(c: Contact, kinds: seq<ContactKind>)
    ensures forall i :: 0 <= i < |LinksOf(c, kinds)| ==> LinksOf(c, kinds)[i] == LinkFor(c, LinksOf(c, kinds)[i].kind)
  {
    if kinds != [] {
      LinksOfEntries(c, kinds[1..]);
      var rest := LinksOf(c, kinds[1..]);
      var r := LinksOf(c, kinds);
      if Truthy(ContactValue(c, kinds[0])) {
        forall i | 0 <= i < |r| ensures r[i] == LinkFor(c, r[i].kind) {
          if i > 0 { assert r[i] == rest[i - 1]; }
        }
      } else {
        assert r == rest;
      }
    }
  }

  /** `LinksOf` keeps the order of `kinds`. */
  lemma {:induction false} LinksOfSorted(c: Contact, kinds: seq<ContactKind>)
    requires RankSorted(kinds)
    ensures LinksSorted(LinksOf(c, kinds))
  {
    if kinds != [] {
      var tail := kinds[1..];
      assert RankSorted(tail) by {
        forall i, j | 0 <= i < j < |tail| ensures Rank(tail[i]) < Rank(tail[j]) {
          assert tail[i] == kinds[i + 1] && tail[j] == kinds[j + 1];
        }
      }
      LinksOfSorted(c, tail);
      LinksOfKinds(c, tail);
      var rest := LinksOf(c, tail);
      var r := LinksOf(c, kinds);
      if Truthy(ContactValue(c, kinds[0])) {
        forall i, j | 0 <= i < j < |r| ensures Rank(r[i].kind) < Rank(r[j].kind) {
          assert r[j] == rest[j - 1];
          if i > 0 {
            assert r[i] == rest[i - 1];
          } else {
            KindsHas(rest, j - 1);
            var m :| 0 <= m < |tail| && tail[m] == rest[j - 1].kind;
            assert tail[m] == kinds[m + 1];
          }
        }
      } else {
        assert r == rest;
      }
    }
  }

  lemma {:induction false} KindsHas(links: seq<ContactLink>, i: nat)
    requires i < |links|
    ensures links[i].kind in Kinds(links)
  {
    if i > 0 {
      KindsHas(links[1..], i - 1);
      assert links[1..][i - 1] == links[i];
    }
  }

  /** The grid's order: email, phone, LinkedIn, GitHub. */
  const GridOrder := [EmailLink, PhoneLink, LinkedInLink, GitHubLink]

  lemma InGridOrder(k: ContactKind)
    ensures k in GridOrder
  {
    match k
    case EmailLink => assert GridOrder[0] == k;
    case PhoneLink => assert GridOrder[1] == k;
    case LinkedInLink => assert GridOrder[2] == k;
    case GitHubLink => assert GridOrder[3] == k;
  }

  /** The contact grid: one link per truthy method, in grid order, each built
      from its own method's value. */
  function ContactLinks(c: Contact): (r: seq<ContactLink>)
    ensures forall k :: k in Kinds(r) <==> Truthy(ContactValue(c, k))
    ensures forall i :: 0 <= i < |r| ==> r[i] == LinkFor(c, r[i].kind)
    ensures LinksSorted(r)
  {
    assert RankSorted(GridOrder);
    assert forall k: ContactKind :: k in GridOrder by {
      forall k: ContactKind ensures k in GridOrder {
        InGridOrder(k);
      }
    }
    LinksOfKinds(c, GridOrder);
    LinksOfEntries(c, GridOrder);
    LinksOfSorted(c, GridOrder);
    LinksOf(c, GridOrder)
  }

  /** The location line below the grid, shown exactly when the location is truthy. */
  function LocationLine(c: Contact): (r: Option<string>)
    ensures r.Some? <==> Truthy(c.location)
    ensures r.Some? ==> Text(r.value) == c.location
  {
    if Truthy(c.location) then Some(c.location.value) else None
  }

  /** A translucent variant of a colour: the colour as interpolated, followed by
      `suffix` (the alpha digits `ChipSuffix` or `ContactSuffix`). */
  function Tint(color: Field, suffix: string): (r: string)
    ensures |r| == |Interpolate(color)| + |suffix|
    ensures r[..|Interpolate(color)|] == Interpolate(color)
    ensures r[|Interpolate(color)|..] == suffix
  {
    Interpolate(color) + suffix
  }

  /** The suffix appended for skill and technology chips and for contact links. */
  const ChipSuffix := "20"
  const ContactSuffix := "10"

  /** Two colours with the same tint under the same suffix interpolate alike. */
  lemma TintDeterminesColor(a: Field, b: Field, suffix: string)
    requires Tint(a, suffix) == Tint(b, suffix)
    ensures Interpolate(a) == Interpolate(b)
  {
    var t := Tint(a, suffix);
    assert Interpolate(a) == t[..|t| - |suffix|];
  }

  /** The file name of the exported PDF. */
  function ExportFilename(username: Field): (r: string)
    ensures |r| == |Interpolate(username)| + 14
    ensures r[..|r| - 14] == Interpolate(username)
    ensures r[|r| - 14..] == "-portfolio.pdf"
  {
    Interpolate(username) + "-portfolio.pdf"
  }

  /** Different usernames never share an export file name. */
  lemma ExportFilenameInjective(a: string, b: string)
    requires ExportFilename(Text(a)) == ExportFilename(Text(b))
    ensures a == b
  {
    var fa := ExportFilename(Text(a));
    assert a == fa[..|fa| - 14];
  }

  // ---------------------------------------------------------------------
  // The rendered page
  // ---------------------------------------------------------------------

  datatype ProjectCard = ProjectCard(
    title: Field,
    description: Field,
    technologies: seq<string>,
    githubUrl: Option<string>,
    liveUrl: Option<string>)

  /** A project card: title, description and technologies as stored; the GitHub
      and live-demo links exactly when their URLs are truthy. */
  function Card(p: Project): (r: ProjectCard)
    ensures r.title == p.title && r.description == p.description && r.technologies == p.technologies
    ensures r.githubUrl.Some? <==> Truthy(p.githubUrl)
    ensures r.githubUrl.Some? ==> Text(r.githubUrl.value) == p.githubUrl
    ensures r.liveUrl.Some? <==> Truthy(p.liveUrl)
    ensures r.liveUrl.Some? ==> Text(r.liveUrl.value) == p.liveUrl
  {
    ProjectCard(
      p.title, p.description, p.technologies,
      if Truthy(p.githubUrl) then Some(p.githubUrl.value) else None,
      if Truthy(p.liveUrl) then Some(p.liveUrl.value) else None)
  }

  /** Everything the page shows that depends on data. */
  datatype PageView = PageView(
    downloadColor: string,
    fontFamily: string,
    palette: Palette,
    spacing: Option<string>,
    heroBackground: Background,
    heroTitle: Field,
    heroSubtitle: Field,
    ctaText: string,
    aboutTitle: Field,
    aboutLayout: AboutLayout,
    bio: Field,
    skills: seq<string>,
    chipTint: string,
    projectsHeading: string,
    cards: seq<ProjectCard>,
    contactHeading: string,
    contactLinks: seq<ContactLink>,
    location: Option<string>,
    contactTint: string)

  /** The page for a loaded portfolio; a missing section reads as `{}`. */
  function View(p: Portfolio, projects: seq<Project>): (r: PageView)
    requires p.about.Some?
    ensures r.contactHeading == "Get in Touch" && r.projectsHeading == "Projects"
    ensures |r.cards| == |projects|
    ensures r.aboutLayout.TextFullWidth? <==> !Truthy(p.about.value.image)
    ensures p.contact.None? ==> r.contactLinks == [] && r.location.None?
    ensures r.skills == p.about.value.skills
    ensures var c := p.customization.GetOr(EmptyCustomization);
      && r.chipTint == Interpolate(c.primaryColor) + "20"
      && r.contactTint == Interpolate(c.primaryColor) + "10"
      && r.spacing == SpacingClass(c.spacing)
      && r.downloadColor == Or(c.primaryColor, "#3B82F6").value
      && r.fontFamily == Or(c.fontFamily, "Inter").value
    ensures r.palette == ThemePalette(p.theme)
    ensures var h := p.hero.GetOr(EmptyHero);
      && r.ctaText == Or(h.ctaText, "View My Work").value
      && r.heroTitle == h.title && r.heroSubtitle == h.subtitle
    ensures r.aboutLayout == AboutLayoutFor(p.about.value.image)
    ensures r.aboutTitle == p.about.value.title && r.bio == p.about.value.bio
    ensures r.heroBackground == HeroBackground(p.hero.GetOr(EmptyHero).backgroundImage, p.theme)
    ensures p.contact.Some? ==> r.contactLinks == ContactLinks(p.contact.value) && r.location == LocationLine(p.contact.value)
    ensures forall i :: 0 <= i < |projects| ==> r.cards[i] == Card(projects[i])
  {
    var c := p.customization.GetOr(EmptyCustomization);
    var hero := p.hero.GetOr(EmptyHero);
    var about := p.about.value;
    var contact := p.contact.GetOr(EmptyContact);
    PageView(
      Or(c.primaryColor, "#3B82F6").value,
      Or(c.fontFamily, "Inter").value,
      ThemePalette(p.theme),
      SpacingClass(c.spacing),
      HeroBackground(hero.backgroundImage, p.theme),
      hero.title,
      hero.subtitle,
      Or(hero.ctaText, "View My Work").value,
      about.title,
      AboutLayoutFor(about.image),
      about.bio,
      about.skills,
      Tint(c.primaryColor, ChipSuffix),
      "Projects",
      seq(|projects|, i requires 0 <= i < |projects| => Card(projects[i])),
      "Get in Touch",
      ContactLinks(contact),
      LocationLine(contact),
      Tint(c.primaryColor, ContactSuffix))
  }

  /** The stored `hero.backgroundColor` has no effect on the page. */
  lemma BackgroundColorUnused(p: Portfolio, projects: seq<Project>, color: Field)
    requires p.about.Some? && p.hero.Some?
    ensures View(p.(hero := Some(p.hero.value.(backgroundColor := color))), projects) == View(p, projects)
  {
  }

  datatype Screen = Spinner | ErrorScreen(message: string) | NoPortfolio | RenderFailure | Page(view: PageView)

  predicate ErrorShown(error: Option<string>) {
    error.Some? && error.value != ""
  }

  /** The screen, by precedence: loading, then error, then no portfolio, then the
      page. A portfolio without an about section throws while rendering (its
      `skills` are read from `{}`). */
  function SelectScreen(loading: bool, error: Option<string>, portfolio: Option<Portfolio>, projects: seq<Project>): (s: Screen)
    ensures loading <==> s == Spinner
    ensures !loading && ErrorShown(error) ==> s == ErrorScreen(error.value)
    ensures s.NoPortfolio? <==> !loading && !ErrorShown(error) && portfolio.None?
    ensures s.Page? <==> !loading && !ErrorShown(error) && portfolio.Some? && portfolio.value.about.Some?
    ensures s.Page? ==> s.view == View(portfolio.value, projects)
    ensures s == RenderFailure <==> !loading && !ErrorShown(error) && portfolio.Some? && portfolio.value.about.None?
  {
    if loading then Spinner
    else if ErrorShown(error) then ErrorScreen(error.value)
    else if portfolio.None? then NoPortfolio
    else if portfolio.value.about.None? then RenderFailure
    else Page(View(portfolio.value, projects))
  }

  /** The page's state: `portfolio`, `projects`, `loading` and `error`. */
  class LivePreview {
    var portfolio: Option<Portfolio>
    var projects: seq<Project>
    var loading: bool
    var error: Option<string>

    constructor ()
      ensures portfolio == None && projects == [] && loading && error == None
    {
      portfolio, projects, loading, error := None, [], true, None;
    }

    function Screen(): Screen
      reads this
    {
      SelectScreen(loading, error, portfolio, projects)
    }

    /** The synchronous start of `fetchPortfolio`, before the request is awaited. */
    method BeginFetch()
      modifies this
      ensures loading && error == None
      ensures portfolio == old(portfolio) && projects == old(projects)
      ensures Screen() == Spinner
    {
      loading := true;
      error := None;
    }

    /** The rest of `fetchPortfolio`, once the request has completed. */
    method FinishFetch(result: FetchResult)
      modifies this
      ensures !loading
      ensures Classify(result).Loaded? ==>
        portfolio == Some(Classify(result).portfolio) && projects == Classify(result).projects && error == old(error)
      ensures Classify(result).Failed? ==>
        error == Some(Classify(result).message) && portfolio == old(portfolio) && projects == old(projects)
      ensures Classify(result).Failed? ==> Screen() == ErrorScreen(Classify(result).message)
    {
      var outcome := Classify(result);
      if outcome.Loaded? {
        portfolio := Some(outcome.portfolio);
        projects := outcome.projects;
      } else {
        error := Some(outcome.message);
      }
      loading := false;
    }

    /** The effect run for `username`. `result` stands for the response the
        request would get; it is not consulted when no request is made. Returns
        the URL requested, if any. */
    method Mount(username: Field, result: FetchResult) returns (request: Option<string>)
      modifies this
      ensures request.None? <==> !Truthy(username)
      ensures request.Some? ==> request.value == ApiBase + username.value
      ensures !loading
      ensures !Truthy(username) ==>
        error == Some("Username not provided") && portfolio == old(portfolio) && projects == old(projects)
      ensures !Truthy(username) ==> Screen() == ErrorScreen("Username not provided")
      ensures Truthy(username) && Classify(result).Loaded? ==>
        portfolio == Some(Classify(result).portfolio) && projects == Classify(result).projects && error == None
      ensures Truthy(username) && Classify(result).Loaded? && Classify(result).portfolio.about.Some? ==>
        Screen() == Page(View(Classify(result).portfolio, Classify(result).projects))
      ensures Truthy(username) && Classify(result).Failed? ==>
        error == Some(Classify(result).message) && portfolio == old(portfolio) && projects == old(projects)
      ensures Truthy(username) && Classify(result).Failed? ==> Screen() == ErrorScreen(Classify(result).message)
    {
      if Truthy(username) {
        request := Some(ApiBase + username.value);
        BeginFetch();
        FinishFetch(result);
      } else {
        request := None;
        error := Some("Username not provided");
        loading := false;
      }
    }
  }
}
