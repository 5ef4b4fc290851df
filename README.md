# Portfolio builder core, modelled in Dafny

This project models the rule-bearing core of a React + Mongoose portfolio
builder:

- **The portfolio editor** (`PortfolioEditor.jsx`). Its form state is the
  class `Editor.PortfolioEditor`. The class covers:
  - merging a stored portfolio into the form when it loads;
  - single-field edits;
  - the comma-separated skills input;
  - the payload that "Save Changes" builds with `||` fallbacks;
  - the un-normalised payload that "Preview" sends.
- **The public preview page** (`LivePreview.jsx`). Its state is the class
  `Preview.LivePreview` (`portfolio`, `projects`, `loading`, `error`). The
  module covers:
  - the fetch by username and how it ends;
  - the precedence of the four screens;
  - the pure presentation decisions: spacing class, palette, hero background,
    about layout, contact grid, colour tints and the export file name.
- **The stored portfolio schema** (`portfolioModel.js`), in module `Schema`:
  - defaults that fire only when a property is missing;
  - enumerated values;
  - required properties;
  - the testimonial rating bounds;
  - the save that applies them.
- **The account settings form** (`Settings.jsx`), as class
  `Settings.SettingsForm`:
  - the change handler that routes `notifications.K` inputs to a nested flag;
  - the password-confirmation check;
  - the e-mail prefill.

Module `Js` carries the JavaScript semantics the rules depend on:
- a property value is `Absent` (undefined) or `Text(s)`;
- truthiness, where `Absent` and `""` are both falsy;
- `||`;
- template interpolation, where a missing value prints as `undefined`;
- `String.prototype.split` on one character, `trim` and `join`.

Module `Document` holds the portfolio's records. Module `Js` also holds the
proof work for split, join and trim: the split/join round trip, piece counts,
and what trim removes.

## Model

| member | source | states |
|---|---|---|
| Js.Or | PortfolioEditor.jsx:105-126 | `a \|\| 'default'` keeps a truthy `a` and otherwise yields the default (even an empty one); it is truthy whenever the default is non-empty |
| Js.TrimRemovesOnlyEdgeSpace | PortfolioEditor.jsx:89 | `trim` removes only leading and trailing white space: the result is a contiguous slice whose removed edges are all white space, and it has no white space at either end |
| Js.SplitCount | PortfolioEditor.jsx:89 | `split(',')` yields one more piece than there are commas |
| Js.JoinSplit | PortfolioEditor.jsx:89 | joining the pieces of `split(sep)` with `sep` gives back the original string |
| Js.SplitJoinComma | PortfolioEditor.jsx:263 | splitting `xs.join(', ')` on `,` gives the first element and then every other element preceded by one blank |
| Schema.Default | portfolioModel.js:32-35 | a schema default replaces a missing value only; a present value, even `""`, is kept |
| Schema.WithDefaults | portfolioModel.js:28-98 | after defaults every defaulted property is present; present values are kept; missing ones get `#808080`, `View My Work`, `#projects`, `About Me`, `light`, `true`, `0`, `#3B82F6`, `#1E40AF`, `Inter`, `modern`, `comfortable`; other properties are untouched |
| Schema.WithDefaultsIdempotent | portfolioModel.js:28-98 | applying the defaults twice is the same as applying them once |
| Schema.TestimonialViolations | portfolioModel.js:3-19 | a testimonial fails exactly when `name` or `content` is missing or empty, or a present `rating` lies outside [1, 5]; each failure is reported exactly when it occurs, with the testimonial's index, and a rating failure names the bound broken and the rating |
| Schema.TestimonialsViolationsEmpty | portfolioModel.js:67 | the testimonial array has no failures exactly when every element is valid |
| Schema.TestimonialsViolationsCover | portfolioModel.js:67 | every failure of testimonial i is reported for the array, under index i |
| Schema.TestimonialsViolationsSource | portfolioModel.js:67 | every failure reported for the array is a failure of the testimonial at its index |
| Schema.Violations | portfolioModel.js:21-100 | a record has no failures exactly when it has an owner, its theme, layout and spacing are missing or allowed, and every testimonial is valid; the missing owner and a disallowed theme are reported exactly when they occur; every testimonial failure is reported; `ViolationsSource` and `ViolationsOfTestimonials` show nothing else is |
| Schema.EnumViolations | portfolioModel.js:89-98 | a disallowed layout or spacing is reported exactly when the stored value is not one of the allowed ones |
| Schema.ViolationsSource | portfolioModel.js:21-100 | every reported failure that is not a testimonial's is the missing owner (only when there is none) or a disallowed theme, layout or spacing carrying the record's own stored value |
| Schema.ViolationsOfTestimonials | portfolioModel.js:67 | the testimonial failures of a record are exactly those of its testimonial array |
| Schema.Save | portfolioModel.js:21-104 | a save succeeds exactly when the record conforms once defaults are applied; a saved record is the defaulted one and has an owner, an allowed theme, layout and spacing, and ratings in [1, 5]; a rejection carries `Violations` of the defaulted record, which lists every failure and only failures the record has (with `EnumViolations`, `ViolationsSource` and `ViolationsOfTestimonials`) |
| Schema.OwnerRequired | portfolioModel.js:23-27 | a portfolio without a user is rejected and the missing user is reported |
| Schema.RatingOutOfRangeRejected | portfolioModel.js:14-18 | any testimonial rating outside [1, 5] rejects the whole record, reporting that testimonial's index, the bound it breaks and the rating |
| Editor.Merge | PortfolioEditor.jsx:58-72 | each section is taken whole when the stored one is present, else the previous one stays; `theme` is taken only when truthy; `isPublic` only when it is a boolean |
| Editor.MergeIdempotent | PortfolioEditor.jsx:62-70 | receiving the same portfolio twice has the effect of receiving it once |
| Editor.MergeKeepsStoredFalse | PortfolioEditor.jsx:69 | a stored `isPublic: false` survives the merge |
| Editor.Set | PortfolioEditor.jsx:74-82 | the addressed `section.field` becomes the value; every other field, every other section, the skills, the theme and `isPublic` are unchanged |
| Editor.ParseSkillsPieces | PortfolioEditor.jsx:84-92 | the skills input yields one skill per comma-separated piece, skill i being piece i with only white space removed from its two ends, so each is comma-free and trimmed; an empty input yields `[""]` |
| Editor.SkillsRoundTrip | PortfolioEditor.jsx:263 | reading back the displayed text of a non-empty list of trimmed, comma-free skills gives the same list |
| Editor.Normalize | PortfolioEditor.jsx:100-127 | in the save payload every field with a non-empty fallback is truthy; truthy values are kept; falsy ones get their fallback (`<name>'s Portfolio`, the user's e-mail, `Welcome to my portfolio`, ...); `isPublic` is kept when boolean (false included) and `true` otherwise; unnamed fields pass through |
| Editor.NormalizeIdempotent | PortfolioEditor.jsx:103-127 | normalising a normalised payload for the same user changes nothing |
| Editor.NormalizeUserUnused | PortfolioEditor.jsx:105-116 | the user is consulted only for a falsy title or a falsy e-mail |
| Editor.SavePayload | PortfolioEditor.jsx:100-128 | with no signed-in user the payload throws exactly when the title or the e-mail is falsy, naming the property read (`name` before `email`); with a user it is the normalised form |
| Editor.EditorAndSchemaDefaultsDiffer | PortfolioEditor.jsx:105-126 | the editor's `\|\|` fallback replaces `""`, the schema's default does not; both replace a missing value |
| Editor.PreviewSkipsNormalisation | PortfolioEditor.jsx:149 | for every form with a falsy theme (the untouched form's `""` among them), saving sends `light` while previewing sends the form's own theme |
| Editor.PortfolioEditor.constructor | PortfolioEditor.jsx:9-39 | the form starts with the initial values, `isPublic` true |
| Editor.PortfolioEditor.OnPortfolioLoaded | PortfolioEditor.jsx:58-72 | a loaded portfolio is merged into the form; no portfolio leaves the form alone; `isPublic` stays a boolean |
| Editor.PortfolioEditor.HandleChange | PortfolioEditor.jsx:74-82 | the form becomes `Set(form, field, value)` |
| Editor.PortfolioEditor.HandleSkillsChange | PortfolioEditor.jsx:84-92 | only `about.skills` changes, to the parsed list |
| Editor.PortfolioEditor.HandleSave | PortfolioEditor.jsx:94-128 | the payload is `SavePayload` of the current form; in every reachable state `isPublic` is sent unchanged |
| Editor.PortfolioEditor.HandlePreview | PortfolioEditor.jsx:146-149 | the preview payload is the form as it stands |
| Preview.ErrorMessage | LivePreview.jsx:35 | the server's message wins, then the error's own message, then `Failed to load portfolio`; never empty |
| Preview.Classify | LivePreview.jsx:27-37 | a request ends loaded exactly when a portfolio came back, with the projects or `[]`; a body without a portfolio fails with `Portfolio data not found`; a failed request carries `ErrorMessage` |
| Preview.SpacingClass | LivePreview.jsx:132-137 | `compact` gives `py-12`, `spacious` `py-32`, `comfortable` or a falsy value `py-20`; no class exactly for an unrecognised truthy value |
| Preview.ThemePalette | LivePreview.jsx:157-158 | the dark palette exactly for theme `dark`, the light one otherwise |
| Preview.HeroBackground | LivePreview.jsx:163-168 | the background is `url(image)` exactly when the image is truthy; otherwise `#2d2d2d` for the dark theme, `#f3f4f6` otherwise |
| Preview.AboutLayoutFor | LivePreview.jsx:199-209 | the text spans both columns exactly when the image is falsy; otherwise the image column shows that image |
| Preview.LinksOfKinds | LivePreview.jsx:315-370 | filtering a list of contact methods keeps exactly the listed methods whose value is truthy |
| Preview.LinksOfEntries | LivePreview.jsx:315-370 | every kept entry is built from its own method's value |
| Preview.LinksOfSorted | LivePreview.jsx:315-370 | filtering keeps the grid order |
| Preview.ContactLinks | LivePreview.jsx:311-371 | the contact grid has an entry for a method exactly when its value is truthy, with `mailto:`/`tel:` links or the raw URL, in the order email, phone, LinkedIn, GitHub |
| Preview.LocationLine | LivePreview.jsx:372-377 | the location line appears exactly when the location is truthy, showing it |
| Preview.Tint | LivePreview.jsx:219 | a tint is the colour as interpolated (`undefined` when missing) followed by exactly the given alpha suffix |
| Preview.TintDeterminesColor | LivePreview.jsx:320 | two tints with the same suffix are equal only when their colours interpolate alike |
| Preview.ExportFilename | LivePreview.jsx:84 | the exported file is named after the username, followed by `-portfolio.pdf` |
| Preview.ExportFilenameInjective | LivePreview.jsx:84 | two different usernames never share an export file name |
| Preview.View | LivePreview.jsx:132-377 | the page always has the `Projects` and `Get in Touch` headings and one card per project, card i being `Card` of project i; chips use the primary colour followed by `20` and contact links followed by `10`; spacing, palette, hero background, about layout, contact grid and location line are the ones `SpacingClass`, `ThemePalette`, `HeroBackground`, `AboutLayoutFor`, `ContactLinks` and `LocationLine` give; the call to action falls back to `View My Work`, the download button and font to `#3B82F6` and `Inter`; hero title and subtitle, about title, bio and skills are shown as stored; a missing contact section shows no links and no location |
| Preview.Card | LivePreview.jsx:247-302 | a project card shows title, description and technologies as stored, and the GitHub and live-demo links exactly when their URLs are truthy, pointing at those URLs |
| Preview.BackgroundColorUnused | LivePreview.jsx:163-168 | the stored `hero.backgroundColor` has no effect on the page |
| Preview.SelectScreen | LivePreview.jsx:102-132 | the spinner exactly while loading; then a non-empty error hides any portfolio; then "no portfolio" exactly when none is loaded; the page exactly when a portfolio with an about section is loaded, and a render failure exactly when the loaded portfolio has none |
| Preview.LivePreview.constructor | LivePreview.jsx:9-12 | the page starts loading, with no portfolio, no projects and no error |
| Preview.LivePreview.BeginFetch | LivePreview.jsx:20-21 | a fetch starts loading and clears the error, and the spinner shows |
| Preview.LivePreview.FinishFetch | LivePreview.jsx:27-40 | after a completed request loading is over; success sets portfolio and projects; failure sets the error, leaves the portfolio alone and shows the error screen |
| Preview.LivePreview.Mount | LivePreview.jsx:17-48 | a request to the public URL is made exactly when the username is truthy; without one the error is `Username not provided`; loading is over either way; the screen follows the outcome |
| Settings.SubmitToast | Settings.jsx:53-63 | submitting is rejected with `New passwords do not match` exactly when a new password is given and the confirmation differs; otherwise `Settings updated successfully` |
| Settings.EmptyNewPasswordAccepted | Settings.jsx:56 | with an empty new password the submit succeeds whatever the confirmation |
| Settings.EqualPasswordsAccepted | Settings.jsx:56 | equal passwords are accepted |
| Settings.MismatchRejected | Settings.jsx:56-59 | a non-empty new password that differs from the confirmation is rejected |
| Settings.SecondPiece | Settings.jsx:37 | the second dot-separated piece of `notifications.…` is the first piece after the prefix |
| Settings.NotificationKey | Settings.jsx:36-37 | the flag name is the text after `notifications.` up to the next dot, or to the end |
| Settings.PrefilledEmail | Settings.jsx:30 | the prefilled e-mail is the user's when it is truthy, `""` otherwise |
| Settings.SettingsForm.constructor | Settings.jsx:7-17 | empty passwords and e-mail; all three notification flags on |
| Settings.SettingsForm.Prefill | Settings.jsx:28-31 | only `email` changes, to the prefilled e-mail |
| Settings.SettingsForm.OnChange | Settings.jsx:34-51 | a `notifications.K` input sets only flag K to `checked`; any other input sets only its own field, to `checked` for a checkbox and `value` otherwise |
| Settings.SettingsForm.OnSubmit | Settings.jsx:53-63 | the outcome is `SubmitToast` of the current new password and confirmation |

## Left out

- Network, store and UI effects are not modelled: the HTTP request, redux `dispatch`/`unwrap`, `navigate` (including the redirects to `/login` and `/preview/<username>`), toasts and console logging. `Preview.LivePreview.Mount` takes the response as a parameter, and the models of `handleSave`/`handlePreview` return the payload they would send.
- The PDF export itself, a foreign library call. Only its file name is modelled.
- Scroll and hash navigation, which depends on DOM geometry and window events.
- A response for an older username that arrives after a newer one. This is a concurrency race, and the source has no cancellation.
- JSON `null` is not told apart from a missing property. Both are `Absent`, or `None` for a section.
- Mongoose type casting, timestamps, `customDomain` and persistence. A rating is a real number, and casting failures are not modelled.
- `about.skills`, `technologies` and `projects` are assumed to be arrays. Values of other types are not modelled.
- Preview.SpacingClass: a spacing equal to an inherited object property name such as `constructor` would yield a non-string class in JavaScript. The model gives no class for it.
- Settings.SettingsForm.OnChange: an input named exactly `notifications` would replace the nested object in JavaScript. The model keeps the flags in their own map, and the form has no such input.
- Editor.SavePayload: the thrown `TypeError` is recorded only by the property name read, not by its engine-specific message.
- JSX structure, icons, heading colours and Tailwind classes other than the spacing map.
