/** The portfolio document as the client sees it: four sections of string
    properties, a theme, a visibility flag, and the author's projects. */
module Document {
  import opened Js

  datatype Hero = Hero(
    title: Field,
    subtitle: Field,
    backgroundImage: Field,
    backgroundColor: Field,
    ctaText: Field,
    ctaLink: Field)

  datatype About = About(
    title: Field,
    bio: Field,
    skills: seq<string>,
    image: Field)

  datatype Contact = Contact(
    email: Field,
    linkedin: Field,
    github: Field,
    phone: Field,
    location: Field)

  datatype Customization = Customization(
    primaryColor: Field,
    secondaryColor: Field,
    fontFamily: Field,
    layout: Field,
    spacing: Field)

  /** A portfolio as received from the server; a section is `None` when the
      property is missing. */
  datatype Portfolio = Portfolio(
    hero: Option<Hero>,
    about: Option<About>,
    contact: Option<Contact>,
    customization: Option<Customization>,
    theme: Field,
    isPublic: MaybeBool)

  datatype Project = Project(
    title: Field,
    description: Field,
    technologies: seq<string>,
    githubUrl: Field,
    liveUrl: Field)

  /** The signed-in user, as far as the core reads it. */
  datatype User = User(name: Field, email: Field)

  /** The objects a missing section is replaced with by `= {}` destructuring. */
  const EmptyHero := Hero(Absent, Absent, Absent, Absent, Absent, Absent)
  const EmptyContact := Contact(Absent, Absent, Absent, Absent, Absent)
  const EmptyCustomization := Customization(Absent, Absent, Absent, Absent, Absent)
}
