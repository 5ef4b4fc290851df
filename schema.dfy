/** The stored portfolio record and its schema rules: defaults that fire only
    when a property is missing, enumerated values, required properties and the
    testimonial rating bounds. */
module Schema {
  import opened Js
  import opened Document

  datatype Testimonial = Testimonial(
    name: Field,
    position: Field,
    company: Field,
    content: Field,
    rating: Option<real>)

  /** A portfolio as handed to the collection. `user` is the owner's object id. */
  datatype PortfolioRecord = PortfolioRecord(
    user: Option<nat>,
    hero: Hero,
    about: About,
    contact: Contact,
    theme: Field,
    testimonials: seq<Testimonial>,
    isPublic: Option<bool>,
    views: Option<int>,
    customization: Customization)

  /** One failed validator; testimonial failures carry the array index. */
  datatype Violation =
    | MissingUser
    | ThemeNotAllowed(theme: string)
    | LayoutNotAllowed(layout: string)
    | SpacingNotAllowed(spacing: string)
    | MissingTestimonialName(index: nat)
    | MissingTestimonialContent(index: nat)
    | RatingBelowMin(index: nat, rating: real)
    | RatingAboveMax(index: nat, rating: real)
  {
    predicate OfTestimonial() {
      MissingTestimonialName? || MissingTestimonialContent? || RatingBelowMin? || RatingAboveMax?
    }
  }

  datatype SaveResult = Saved(record: PortfolioRecord) | Rejected(violations: set<Violation>)

  const Themes: set<string> := {"light", "dark"}
  const Layouts: set<string> := {"classic", "modern", "minimal"}
  const Spacings: set<string> := {"comfortable", "compact", "spacious"}
  const MinRating: real := 1.0
  const MaxRating: real := 5.0

  /** A schema default: it replaces a missing value only, never an empty one. */
  function Default(f: Field, default: string): (r: Field)
    ensures f.Text? ==> r == f
    ensures f.Absent? ==> r == Text(default)
  {
    if f.Absent? then Text(default) else f
  }

  /** The record after the schema's defaults are applied. */
  function WithDefaults(p: PortfolioRecord): (d: PortfolioRecord)
    // every defaulted property is present afterwards
    ensures d.hero.backgroundColor.Text? && d.hero.ctaText.Text? && d.hero.ctaLink.Text?
    ensures d.about.title.Text? && d.theme.Text? && d.isPublic.Some? && d.views.Some?
    ensures d.customization.primaryColor.Text? && d.customization.secondaryColor.Text?
    ensures d.customization.fontFamily.Text? && d.customization.layout.Text?
    ensures d.customization.spacing.Text?
    // a value that is present, even "", is never replaced
    ensures p.hero.backgroundColor.Text? ==> d.hero.backgroundColor == p.hero.backgroundColor
    ensures p.hero.ctaText.Text? ==> d.hero.ctaText == p.hero.ctaText
    ensures p.hero.ctaLink.Text? ==> d.hero.ctaLink == p.hero.ctaLink
    ensures p.about.title.Text? ==> d.about.title == p.about.title
    ensures p.theme.Text? ==> d.theme == p.theme
    ensures p.isPublic.Some? ==> d.isPublic == p.isPublic
    ensures p.views.Some? ==> d.views == p.views
    ensures p.customization.primaryColor.Text? ==> d.customization.primaryColor == p.customization.primaryColor
    ensures p.customization.secondaryColor.Text? ==> d.customization.secondaryColor == p.customization.secondaryColor
    ensures p.customization.fontFamily.Text? ==> d.customization.fontFamily == p.customization.fontFamily
    ensures p.customization.layout.Text? ==> d.customization.layout == p.customization.layout
    ensures p.customization.spacing.Text? ==> d.customization.spacing == p.customization.spacing
    // the values a missing property receives
    ensures p.hero.backgroundColor.Absent? ==> d.hero.backgroundColor == Text("#808080")
    ensures p.hero.ctaText.Absent? ==> d.hero.ctaText == Text("View My Work")
    ensures p.hero.ctaLink.Absent? ==> d.hero.ctaLink == Text("#projects")
    ensures p.about.title.Absent? ==> d.about.title == Text("About Me")
    ensures p.theme.Absent? ==> d.theme == Text("light")
    ensures p.isPublic.None? ==> d.isPublic == Some(true)
    ensures p.views.None? ==> d.views == Some(0)
    ensures p.customization.primaryColor.Absent? ==> d.customization.primaryColor == Text("#3B82F6")
    ensures p.customization.secondaryColor.Absent? ==> d.customization.secondaryColor == Text("#1E40AF")
    ensures p.customization.fontFamily.Absent? ==> d.customization.fontFamily == Text("Inter")
    ensures p.customization.layout.Absent? ==> d.customization.layout == Text("modern")
    ensures p.customization.spacing.Absent? ==> d.customization.spacing == Text("comfortable")
    // properties without a default are untouched
    ensures d.user == p.user && d.contact == p.contact && d.testimonials == p.testimonials
    ensures d.hero.title == p.hero.title && d.hero.subtitle == p.hero.subtitle
    ensures d.hero.backgroundImage == p.hero.backgroundImage
    ensures d.about.bio == p.about.bio && d.about.skills == p.about.skills && d.about.image == p.about.image
  {
    p.(
      hero := p.hero.(
        backgroundColor := Default(p.hero.backgroundColor, "#808080"),
        ctaText := Default(p.hero.ctaText, "View My Work"),
        ctaLink := Default(p.hero.ctaLink, "#projects")),
      about := p.about.(title := Default(p.about.title, "About Me")),
      theme := Default(p.theme, "light"),
      isPublic := Some(p.isPublic.GetOr(true)),
      views := Some(p.views.GetOr(0)),
      customization := p.customization.(
        primaryColor := Default(p.customization.primaryColor, "#3B82F6"),
        secondaryColor := Default(p.customization.secondaryColor, "#1E40AF"),
        fontFamily := Default(p.customization.fontFamily, "Inter"),
        layout := Default(p.customization.layout, "modern"),
        spacing := Default(p.customization.spacing, "comfortable")))
  }

  /** Applying the defaults a second time changes nothing. */
  lemma WithDefaultsIdempotent(p: PortfolioRecord)
    ensures WithDefaults(WithDefaults(p)) == WithDefaults(p)
  {
  }

  /** A required string must be present and non-empty. */
  predicate RequiredPresent(f: Field) {
    f.Text? && |f.value| > 0
  }

  /** An enumerated string passes when missing or when it is one of the values. */
  predicate InEnum(f: Field, values: set<string>) {
    f.Absent? || f.value in values
  }

  predicate ValidTestimonial(t: Testimonial) {
    && RequiredPresent(t.name)
    && RequiredPresent(t.content)
    && (t.rating.Some? ==> MinRating <= t.rating.value <= MaxRating)
  }

  /** What the schema accepts. */
  predicate Conforms(d: PortfolioRecord) {
    && d.user.Some?
    && InEnum(d.theme, Themes)
    && InEnum(d.customization.layout, Layouts)
    && InEnum(d.customization.spacing, Spacings)
    && forall i :: 0 <= i < |d.testimonials| ==> ValidTestimonial(d.testimonials[i])
  }

  /** The validators that fail on one testimonial at array index `index`. */
  function TestimonialViolations(t: Testimonial, index: nat): (v: set<Violation>)
    ensures v == {} <==> ValidTestimonial(t)
    ensures MissingTestimonialName(index) in v <==> !RequiredPresent(t.name)
    ensures MissingTestimonialContent(index) in v <==> !RequiredPresent(t.content)
    ensures t.rating.Some? && t.rating.value < MinRating ==> RatingBelowMin(index, t.rating.value) in v
    ensures t.rating.Some? && t.rating.value > MaxRating ==> RatingAboveMax(index, t.rating.value) in v
    ensures forall x :: x in v ==>
      && x.OfTestimonial() && x.index == index
      && (x.RatingBelowMin? ==> t.rating == Some(x.rating) && x.rating < MinRating)
      && (x.RatingAboveMax? ==> t.rating == Some(x.rating) && x.rating > MaxRating)
  {
    (if RequiredPresent(t.name) then {} else {MissingTestimonialName(index)})
    + (if RequiredPresent(t.content) then {} else {MissingTestimonialContent(index)})
    + (if t.rating.Some? && t.rating.value < MinRating then {RatingBelowMin(index, t.rating.value)} else {})
    + (if t.rating.Some? && t.rating.value > MaxRating then {RatingAboveMax(index, t.rating.value)} else {})
  }

  /** The failures of the testimonials `ts`, the first of which sits at array index `offset`. */
  function TestimonialsViolations(ts: seq<Testimonial>, offset: nat): set<Violation> {
    if ts == [] then {}
    else TestimonialViolations(ts[0], offset) + TestimonialsViolations(ts[1..], offset + 1)
  }

  lemma {:induction false} TestimonialsViolationsEmpty(ts: seq<Testimonial>, offset: nat)
    ensures TestimonialsViolations(ts, offset) == {} <==> forall i :: 0 <= i < |ts| ==> ValidTestimonial(ts[i])
    ensures forall x :: x in TestimonialsViolations(ts, offset) ==> x.OfTestimonial()
  {
    if ts != [] {
      TestimonialsViolationsEmpty(ts[1..], offset + 1);
      if forall i :: 0 <= i < |ts| ==> ValidTestimonial(ts[i]) {
        assert ValidTestimonial(ts[0]);
        forall i | 0 <= i < |ts[1..]| ensures ValidTestimonial(ts[1..][i]) {
          assert ts[1..][i] == ts[i + 1];
        }
      }
      if TestimonialsViolations(ts, offset) == {} {
        forall i | 0 <= i < |ts| ensures ValidTestimonial(ts[i]) {
          if i > 0 { assert ts[i] == ts[1..][i - 1]; }
        }
      }
    }
  }

  /** Each testimonial's failures are among the array's, under its own index. */
  lemma {:induction false} TestimonialsViolationsCover(ts: seq<Testimonial>, offset: nat, i: nat)
    requires i < |ts|
    ensures TestimonialViolations(ts[i], offset + i) <= TestimonialsViolations(ts, offset)
  {
    if i > 0 {
      TestimonialsViolationsCover(ts[1..], offset + 1, i - 1);
      assert ts[1..][i - 1] == ts[i];
    }
  }

  /** Every failure of the array is a failure of the testimonial at its index. */
  lemma {:induction false} TestimonialsViolationsSource(ts: seq<Testimonial>, offset: nat, x: Violation)
    requires x in TestimonialsViolations(ts, offset)
    ensures x.OfTestimonial() && offset <= x.index < offset + |ts|
    ensures x in TestimonialViolations(ts[x.index - offset], x.index)
  {
    if x !in TestimonialViolations(ts[0], offset) {
      TestimonialsViolationsSource(ts[1..], offset + 1, x);
      assert ts[1..][x.index - (offset + 1)] == ts[x.index - offset];
    }
  }

  /** Every validator that fails on a record; the record conforms exactly when there is none. */
  function Violations(d: PortfolioRecord): (v: set<Violation>)
    ensures v == {} <==> Conforms(d)
    ensures MissingUser in v <==> d.user.None?
    ensures d.theme.Text? ==> (ThemeNotAllowed(d.theme.value) in v <==> d.theme.value !in Themes)
    ensures TestimonialsViolations(d.testimonials, 0) <= v
  {
    TestimonialsViolationsEmpty(d.testimonials, 0);
    var owner := if d.user.None? then {MissingUser} else {};
    var theme := if InEnum(d.theme, Themes) then {} else {ThemeNotAllowed(d.theme.value)};
    var layout := if InEnum(d.customization.layout, Layouts) then {} else {LayoutNotAllowed(d.customization.layout.value)};
    var spacing := if InEnum(d.customization.spacing, Spacings) then {} else {SpacingNotAllowed(d.customization.spacing.value)};
    var testimonials := TestimonialsViolations(d.testimonials, 0);
    owner + theme + layout + spacing + testimonials
  }

  /** A disallowed layout or spacing is reported exactly when it occurs. */
  lemma EnumViolations(d: PortfolioRecord)
    ensures d.customization.layout.Text? ==>
      (LayoutNotAllowed(d.customization.layout.value) in Violations(d) <==> d.customization.layout.value !in Layouts)
    ensures d.customization.spacing.Text? ==>
      (SpacingNotAllowed(d.customization.spacing.value) in Violations(d) <==> d.customization.spacing.value !in Spacings)
  {
    TestimonialsViolationsEmpty(d.testimonials, 0);
  }

  /** Every other failure reported is one the record has: the missing owner, or
      a disallowed theme, layout or spacing carrying the record's own value. */
  lemma ViolationsSource(d: PortfolioRecord)
    ensures forall x :: x in Violations(d) && !x.OfTestimonial() ==>
      || x == MissingUser
      || (x.ThemeNotAllowed? && d.theme == Text(x.theme) && x.theme !in Themes)
      || (x.LayoutNotAllowed? && d.customization.layout == Text(x.layout) && x.layout !in Layouts)
      || (x.SpacingNotAllowed? && d.customization.spacing == Text(x.spacing) && x.spacing !in Spacings)
    ensures MissingUser in Violations(d) ==> d.user.None?
  {
    TestimonialsViolationsEmpty(d.testimonials, 0);
    var owner := if d.user.None? then {MissingUser} else {};
    var theme := if InEnum(d.theme, Themes) then {} else {ThemeNotAllowed(d.theme.value)};
    var layout := if InEnum(d.customization.layout, Layouts) then {} else {LayoutNotAllowed(d.customization.layout.value)};
    var spacing := if InEnum(d.customization.spacing, Spacings) then {} else {SpacingNotAllowed(d.customization.spacing.value)};
    assert Violations(d) == owner + theme + layout + spacing + TestimonialsViolations(d.testimonials, 0);
    forall x | x in Violations(d) && !x.OfTestimonial()
      ensures || x == MissingUser
        || (x.ThemeNotAllowed? && d.theme == Text(x.theme) && x.theme !in Themes)
        || (x.LayoutNotAllowed? && d.customization.layout == Text(x.layout) && x.layout !in Layouts)
        || (x.SpacingNotAllowed? && d.customization.spacing == Text(x.spacing) && x.spacing !in Spacings)
    {
      assert x in owner || x in theme || x in layout || x in spacing;
    }
  }

  /** The testimonial failures of a record are exactly those of its testimonial array. */
  lemma ViolationsOfTestimonials(d: PortfolioRecord)
    ensures forall x :: x in Violations(d) && x.OfTestimonial() <==> x in TestimonialsViolations(d.testimonials, 0)
  {
    TestimonialsViolationsEmpty(d.testimonials, 0);
  }

  /** Saving a record: the defaults are applied first, then every validator runs. */
  function Save(p: PortfolioRecord): (r: SaveResult)
    ensures r.Saved? <==> Conforms(WithDefaults(p))
    ensures r.Saved? ==> r.record == WithDefaults(p)
    ensures r.Saved? ==> r.record.user.Some? && r.record.theme.value in Themes
    ensures r.Saved? ==> r.record.customization.layout.value in Layouts
    ensures r.Saved? ==> r.record.customization.spacing.value in Spacings
    ensures r.Saved? ==> forall i :: 0 <= i < |r.record.testimonials| ==>
      r.record.testimonials[i].rating.Some? ==> MinRating <= r.record.testimonials[i].rating.value <= MaxRating
    ensures r.Rejected? ==> r.violations != {} && r.violations == Violations(WithDefaults(p))
  {
    var d := WithDefaults(p);
    var v := Violations(d);
    if v == {} then Saved(d) else Rejected(v)
  }

  /** A record without an owner is never saved. */
  lemma OwnerRequired(p: PortfolioRecord)
    requires p.user.None?
    ensures Save(p).Rejected? && MissingUser in Save(p).violations
  {
  }

  /** A testimonial rating outside [1, 5] rejects the whole record and names the
      testimonial, the bound it breaks and the rating. */
  lemma {:induction false} RatingOutOfRangeRejected(p: PortfolioRecord, i: nat)
    requires i < |p.testimonials| && p.testimonials[i].rating.Some?
    requires !(MinRating <= p.testimonials[i].rating.value <= MaxRating)
    ensures Save(p).Rejected?
    ensures p.testimonials[i].rating.value < MinRating ==>
      RatingBelowMin(i, p.testimonials[i].rating.value) in Save(p).violations
    ensures p.testimonials[i].rating.value > MaxRating ==>
      RatingAboveMax(i, p.testimonials[i].rating.value) in Save(p).violations
  {
    var d := WithDefaults(p);
    assert !ValidTestimonial(d.testimonials[i]);
    TestimonialsViolationsCover(d.testimonials, 0, i);
    assert TestimonialViolations(d.testimonials[i], i) <= Violations(d);
  }
}
