/** The portfolio editor: the form state, the merge of a loaded portfolio into
    it, single-field edits, the comma-separated skills input, and the payload
    sent when saving. */
module Editor {
  import opened Js
  import opened Document
  import Schema

  /** The editor's form state. */
  datatype Form = Form(
    hero: Hero,
    about: About,
    contact: Contact,
    customization: Customization,
    theme: Field,
    isPublic: MaybeBool)

  /** The form before any portfolio is loaded; `hero.backgroundColor` is not set. */
  const InitialForm := Form(
    Hero(Text(""), Text(""), Text(""), Absent, Text("View My Work"), Text("#projects")),
    About(Text("About Me"), Text(""), [], Text("")),
    Contact(Text(""), Text(""), Text(""), Text(""), Text("")),
    Customization(Text("#3B82F6"), Text("#1E40AF"), Text("Inter"), Text("modern"), Text("comfortable")),
    Text(""),
    IsBool(true))

  // ---------------------------------------------------------------------
  // Loading a stored portfolio into the form
  // ---------------------------------------------------------------------

  /** The form after a portfolio arrives: a section is taken whole when the
      stored one is present, `theme` when it is truthy, `isPublic` when it is a
      boolean; otherwise the previous value stays. */
  function Merge(prev: Form, p: Portfolio): (r: Form)
    ensures p.hero.Some? ==> r.hero == p.hero.value
    ensures p.hero.None? ==> r.hero == prev.hero
    ensures p.about.Some? ==> r.about == p.about.value
    ensures p.about.None? ==> r.about == prev.about
    ensures p.contact.Some? ==> r.contact == p.contact.value
    ensures p.contact.None? ==> r.contact == prev.contact
    ensures p.customization.Some? ==> r.customization == p.customization.value
    ensures p.customization.None? ==> r.customization == prev.customization
    ensures Truthy(p.theme) ==> r.theme == p.theme
    ensures !Truthy(p.theme) ==> r.theme == prev.theme
    ensures p.isPublic.IsBool? ==> r.isPublic == p.isPublic
    ensures p.isPublic.NotBoolean? ==> r.isPublic == prev.isPublic
  {
    Form(
      p.hero.GetOr(prev.hero),
      p.about.GetOr(prev.about),
      p.contact.GetOr(prev.contact),
      p.customization.GetOr(prev.customization),
      OrElse(p.theme, prev.theme),
      if p.isPublic.IsBool? then p.isPublic else prev.isPublic)
  }

  /** Receiving the same portfolio twice has the effect of receiving it once. */
  lemma MergeIdempotent(prev: Form, p: Portfolio)
    ensures Merge(Merge(prev, p), p) == Merge(prev, p)
  {
  }

  /** A stored `false` is kept, never replaced by the form's `true`. */
  lemma MergeKeepsStoredFalse(prev: Form, p: Portfolio)
    requires p.isPublic == IsBool(false)
    ensures Merge(prev, p).isPublic == IsBool(false)
  {
  }

  // ---------------------------------------------------------------------
  // handleChange: one field of one section
  // ---------------------------------------------------------------------

  datatype SectionName = HeroSection | AboutSection | ContactSection | CustomizationSection

  /** The string fields an edit can address, as `section.field`. */
  datatype FieldRef =
    | HeroTitle | HeroSubtitle | HeroBackgroundImage | HeroBackgroundColor | HeroCtaText | HeroCtaLink
    | AboutTitle | AboutBio | AboutImage
    | ContactEmail | ContactLinkedin | ContactGithub | ContactPhone | ContactLocation
    | PrimaryColor | SecondaryColor | FontFamily | Layout | Spacing
  {
    function Section(): SectionName {
      if HeroTitle? || HeroSubtitle? || HeroBackgroundImage? || HeroBackgroundColor? || HeroCtaText? || HeroCtaLink? then HeroSection
      else if AboutTitle? || AboutBio? || AboutImage? then AboutSection
      else if ContactEmail? || ContactLinkedin? || ContactGithub? || ContactPhone? || ContactLocation? then ContactSection
      else CustomizationSection
    }
  }

  /** `form[section][field]` */
  function Get(form: Form, f: FieldRef): Field {
    match f
    case HeroTitle => form.hero.title
    case HeroSubtitle => form.hero.subtitle
    case HeroBackgroundImage => form.hero.backgroundImage
    case HeroBackgroundColor => form.hero.backgroundColor
    case HeroCtaText => form.hero.ctaText
    case HeroCtaLink => form.hero.ctaLink
    case AboutTitle => form.about.title
    case AboutBio => form.about.bio
    case AboutImage => form.about.image
    case ContactEmail => form.contact.email
    case ContactLinkedin => form.contact.linkedin
    case ContactGithub => form.contact.github
    case ContactPhone => form.contact.phone
    case ContactLocation => form.contact.location
    case PrimaryColor => form.customization.primaryColor
    case SecondaryColor => form.customization.secondaryColor
    case FontFamily => form.customization.fontFamily
    case Layout => form.customization.layout
    case Spacing => form.customization.spacing
  }

  /** `handleChange(section, field, value)`: the addressed field becomes `value`
      and every other field, section, the skills, theme and isPublic stay. */
  function Set(form: Form, f: FieldRef, value: string): (r: Form)
    ensures Get(r, f) == Text(value)
    ensures forall g :: g != f ==> Get(r, g) == Get(form, g)
    ensures f.Section() != HeroSection ==> r.hero == form.hero
    ensures f.Section() != AboutSection ==> r.about == form.about
    ensures f.Section() != ContactSection ==> r.contact == form.contact
    ensures f.Section() != CustomizationSection ==> r.customization == form.customization
    ensures r.about.skills == form.about.skills
    ensures r.theme == form.theme && r.isPublic == form.isPublic
  {
    var v := Text(value);
    match f
    case HeroTitle => form.(hero := form.hero.(title := v))
    case HeroSubtitle => form.(hero := form.hero.(subtitle := v))
    case HeroBackgroundImage => form.(hero := form.hero.(backgroundImage := v))
    case HeroBackgroundColor => form.(hero := form.hero.(backgroundColor := v))
    case HeroCtaText => form.(hero := form.hero.(ctaText := v))
    case HeroCtaLink => form.(hero := form.hero.(ctaLink := v))
    case AboutTitle => form.(about := form.about.(title := v))
    case AboutBio => form.(about := form.about.(bio := v))
    case AboutImage => form.(about := form.about.(image := v))
    case ContactEmail => form.(contact := form.contact.(email := v))
    case ContactLinkedin => form.(contact := form.contact.(linkedin := v))
    case ContactGithub => form.(contact := form.contact.(github := v))
    case ContactPhone => form.(contact := form.contact.(phone := v))
    case ContactLocation => form.(contact := form.contact.(location := v))
    case PrimaryColor => form.(customization := form.customization.(primaryColor := v))
    case SecondaryColor => form.(customization := form.customization.(secondaryColor := v))
    case FontFamily => form.(customization := form.customization.(fontFamily := v))
    case Layout => form.(customization := form.customization.(layout := v))
    case Spacing => form.(customization := form.customization.(spacing := v))
  }

  // ---------------------------------------------------------------------
  // The skills input
  // ---------------------------------------------------------------------

  /** `skills.split(',').map(skill => skill.trim())` */
  function ParseSkills(s: string): seq<string> {
    var pieces := Split(s, ',');
    seq(|pieces|, i requires 0 <= i < |pieces| => Trim(pieces[i]))
  }

  /** What the skills input displays: `skills.join(', ')`. */
  function SkillsText(skills: seq<string>): string {
    Join(skills, ", ")
  }

  /** One skill per comma-separated piece: skill i is piece i with only the
      white space at its two ends removed, so it is comma-free and trimmed; an
      empty input gives one empty skill, not none. */
  lemma {:induction false} ParseSkillsPieces(s: string)
    ensures |ParseSkills(s)| == |Split(s, ',')| == Count(s, ',') + 1
    ensures forall i :: 0 <= i < |ParseSkills(s)| ==> EdgeTrimmedSlice(ParseSkills(s)[i], Split(s, ',')[i])
    ensures forall i :: 0 <= i < |ParseSkills(s)| ==> ',' !in ParseSkills(s)[i] && Trimmed(ParseSkills(s)[i])
    ensures s == "" ==> ParseSkills(s) == [""]
  {
    var pieces := Split(s, ',');
    SplitCount(s, ',');
    SplitPiecesFree(s, ',');
    var r := ParseSkills(s);
    forall i | 0 <= i < |r| ensures EdgeTrimmedSlice(r[i], pieces[i]) && ',' !in r[i] && Trimmed(r[i]) {
      var a, b := TrimRemovesOnlyEdgeSpace(pieces[i]);
      assert r[i] == pieces[i][a..b];
      assert ',' !in pieces[i];
    }
  }

  /** Displaying a list of trimmed, comma-free skills and reading the text back
      gives the same list (the empty list reads back as `[""]`). */
  lemma {:induction false} SkillsRoundTrip(skills: seq<string>)
    requires |skills| >= 1
    requires forall i :: 0 <= i < |skills| ==> ',' !in skills[i] && Trimmed(skills[i])
    ensures ParseSkills(SkillsText(skills)) == skills
  {
    SplitJoinComma(skills);
    var pieces := Split(SkillsText(skills), ',');
    var r := ParseSkills(SkillsText(skills));
    forall i | 0 <= i < |skills| ensures r[i] == skills[i] {
      if i == 0 {
        TrimmedIsFixed(skills[0]);
      } else {
        assert pieces[i] == " " + skills[i];
        TrimAfterBlank(skills[i]);
      }
    }
  }

  // ---------------------------------------------------------------------
  // The payload sent by "Save Changes"
  // ---------------------------------------------------------------------

  /** The save payload: every named leaf falls back to its default with `||`;
      `isPublic` falls back to `true` only when it is not a boolean. */
  function Normalize(f: Form, user: User): (r: Form)
    // the fields with a non-empty fallback are non-empty afterwards
    ensures Truthy(r.hero.title) && Truthy(r.hero.subtitle) && Truthy(r.hero.ctaText) && Truthy(r.hero.ctaLink)
    ensures Truthy(r.about.title) && Truthy(r.theme)
    ensures Truthy(r.customization.primaryColor) && Truthy(r.customization.secondaryColor)
    ensures Truthy(r.customization.fontFamily) && Truthy(r.customization.layout)
    ensures Truthy(r.customization.spacing)
    // a truthy value is kept
    ensures Truthy(f.hero.title) ==> r.hero.title == f.hero.title
    ensures Truthy(f.hero.subtitle) ==> r.hero.subtitle == f.hero.subtitle
    ensures Truthy(f.hero.ctaText) ==> r.hero.ctaText == f.hero.ctaText
    ensures Truthy(f.hero.ctaLink) ==> r.hero.ctaLink == f.hero.ctaLink
    ensures Truthy(f.about.title) ==> r.about.title == f.about.title
    ensures Truthy(f.contact.email) ==> r.contact.email == f.contact.email
    ensures Truthy(f.theme) ==> r.theme == f.theme
    ensures Truthy(f.customization.primaryColor) ==> r.customization.primaryColor == f.customization.primaryColor
    ensures Truthy(f.customization.secondaryColor) ==> r.customization.secondaryColor == f.customization.secondaryColor
    ensures Truthy(f.customization.fontFamily) ==> r.customization.fontFamily == f.customization.fontFamily
    ensures Truthy(f.customization.layout) ==> r.customization.layout == f.customization.layout
    ensures Truthy(f.customization.spacing) ==> r.customization.spacing == f.customization.spacing
    // a falsy value ("" or missing) gets the fallback
    ensures !Truthy(f.hero.title) ==> r.hero.title == Text(Interpolate(user.name) + "'s Portfolio")
    ensures !Truthy(f.hero.subtitle) ==> r.hero.subtitle == Text("Welcome to my portfolio")
    ensures !Truthy(f.hero.ctaText) ==> r.hero.ctaText == Text("View My Work")
    ensures !Truthy(f.hero.ctaLink) ==> r.hero.ctaLink == Text("#projects")
    ensures !Truthy(f.about.title) ==> r.about.title == Text("About Me")
    ensures !Truthy(f.contact.email) ==> r.contact.email == user.email
    ensures !Truthy(f.theme) ==> r.theme == Text("light")
    ensures !Truthy(f.customization.primaryColor) ==> r.customization.primaryColor == Text("#3B82F6")
    ensures !Truthy(f.customization.secondaryColor) ==> r.customization.secondaryColor == Text("#1E40AF")
    ensures !Truthy(f.customization.fontFamily) ==> r.customization.fontFamily == Text("Inter")
    ensures !Truthy(f.customization.layout) ==> r.customization.layout == Text("modern")
    ensures !Truthy(f.customization.spacing) ==> r.customization.spacing == Text("comfortable")
    // isPublic: a boolean (false included) is kept, anything else becomes true
    ensures f.isPublic.IsBool? ==> r.isPublic == f.isPublic
    ensures f.isPublic.NotBoolean? ==> r.isPublic == IsBool(true)
    // fields the payload does not name pass through
    ensures r.hero.backgroundImage == f.hero.backgroundImage && r.hero.backgroundColor == f.hero.backgroundColor
    ensures r.about.bio == f.about.bio && r.about.skills == f.about.skills && r.about.image == f.about.image
    ensures r.contact.linkedin == f.contact.linkedin && r.contact.github == f.contact.github
    ensures r.contact.phone == f.contact.phone && r.contact.location == f.contact.location
  {
    f.(
      hero := f.hero.(
        title := Or(f.hero.title, Interpolate(user.name) + "'s Portfolio"),
        subtitle := Or(f.hero.subtitle, "Welcome to my portfolio"),
        ctaText := Or(f.hero.ctaText, "View My Work"),
        ctaLink := Or(f.hero.ctaLink, "#projects")),
      about := f.about.(title := Or(f.about.title, "About Me")),
      contact := f.contact.(email := OrElse(f.contact.email, user.email)),
      customization := f.customization.(
        primaryColor := Or(f.customization.primaryColor, "#3B82F6"),
        secondaryColor := Or(f.customization.secondaryColor, "#1E40AF"),
        fontFamily := Or(f.customization.fontFamily, "Inter"),
        layout := Or(f.customization.layout, "modern"),
        spacing := Or(f.customization.spacing, "comfortable")),
      theme := Or(f.theme, "light"),
      isPublic := if f.isPublic.IsBool? then f.isPublic else IsBool(true))
  }

  /** Normalising a normalised payload again, for the same user, changes nothing. */
  lemma NormalizeIdempotent(f: Form, user: User)
    ensures Normalize(Normalize(f, user), user) == Normalize(f, user)
  {
  }

  /** The user is read only for a falsy title or a falsy email. */
  lemma NormalizeUserUnused(f: Form, u1: User, u2: User)
    requires Truthy(f.hero.title) && Truthy(f.contact.email)
    ensures Normalize(f, u1) == Normalize(f, u2)
  {
  }

  /** Building the payload either succeeds or throws on reading a property of a
      missing user (`name` for the title fallback, `email` for the email one). */
  datatype SaveAttempt = Payload(form: Form) | NullUserRead(property: string)

  const NoUser := User(Absent, Absent)

  /** The argument of `updatePortfolio` in `handleSave`. The `||` fallbacks are
      evaluated left to right and short-circuit, so a missing user is only
      dereferenced when the title or the email is falsy. */
  function SavePayload(f: Form, user: Option<User>): (r: SaveAttempt)
    ensures r.NullUserRead? <==> user.None? && (!Truthy(f.hero.title) || !Truthy(f.contact.email))
    ensures r.NullUserRead? ==> r.property == (if !Truthy(f.hero.title) then "name" else "email")
    ensures user.Some? ==> r == Payload(Normalize(f, user.value))
    ensures r.Payload? && user.None? ==> forall u :: r.form == Normalize(f, u)
  {
    match user
    case Some(u) => Payload(Normalize(f, u))
    case None =>
      if !Truthy(f.hero.title) then NullUserRead("name")
      else if !Truthy(f.contact.email) then NullUserRead("email")
      else Payload(Normalize(f, NoUser))
  }

  /** Defaults in the editor fire on `""` as well as on a missing value; the
      schema's defaults fire on a missing value only. */
  lemma EditorAndSchemaDefaultsDiffer(default: string)
    requires default != ""
    ensures Or(Text(""), default) == Text(default)
    ensures Schema.Default(Text(""), default) == Text("")
    ensures Or(Absent, default) == Schema.Default(Absent, default)
  {
  }

  /** The editor's state: `formData`, replaced step by step by the handlers. */
  class PortfolioEditor {
    var formData: Form

    /** `isPublic` is a boolean in every reachable state. */
    predicate Valid()
      reads this
    {
      formData.isPublic.IsBool?
    }

    constructor ()
      ensures Valid() && formData == InitialForm
    {
      formData := InitialForm;
    }

    /** The effect that runs when the store's portfolio changes. */
    method OnPortfolioLoaded(portfolio: Option<Portfolio>)
      requires Valid()
      modifies this
      ensures Valid()
      ensures portfolio.Some? ==> formData == Merge(old(formData), portfolio.value)
      ensures portfolio.None? ==> formData == old(formData)
    {
      if portfolio.Some? {
        formData := Merge(formData, portfolio.value);
      }
    }

    /** `handleChange(section, field, value)` */
    method HandleChange(field: FieldRef, value: string)
      requires Valid()
      modifies this
      ensures Valid()
      ensures formData == Set(old(formData), field, value)
    {
      formData := Set(formData, field, value);
    }

    /** `handleSkillsChange(text)`: only `about.skills` changes. */
    method HandleSkillsChange(text: string)
      requires Valid()
      modifies this
      ensures Valid()
      ensures formData == old(formData).(about := old(formData).about.(skills := ParseSkills(text)))
    {
      formData := formData.(about := formData.about.(skills := ParseSkills(text)));
    }

    /** The payload "Save Changes" sends; in every reachable state `isPublic` is sent as it is. */
    method HandleSave(user: Option<User>) returns (payload: SaveAttempt)
      requires Valid()
      ensures payload == SavePayload(formData, user)
      ensures payload.Payload? ==> payload.form.isPublic == formData.isPublic
    {
      payload := SavePayload(formData, user);
    }

    /** The payload "Preview" sends: the form as it is, without the fallbacks. */
    method HandlePreview() returns (payload: Form)
      ensures payload == formData
    {
      payload := formData;
    }
  }

  /** For any form whose theme is falsy (the untouched form's `""` among them),
      saving sends "light" while previewing sends the theme as it is. */
  lemma PreviewSkipsNormalisation(f: Form, user: User)
    requires !Truthy(f.theme)
    ensures SavePayload(f, Some(user)).Payload?
    ensures SavePayload(f, Some(user)).form.theme == Text("light")
    ensures SavePayload(f, Some(user)).form.theme != f.theme
  {
  }
}
