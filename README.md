# Self-service development environment platform: client-side page logic

This project models, in Dafny, the logic of the browser pages of a self-service platform for
development environments. The pages are the dashboard, the documentation catalogue, the
request-environment form, the environment detail view and the contact form, plus the shared
page header. Storage and identity belong to external services. What is left on the client is
modelled here:

- **Derived views.** The dashboard and documentation lists come from a case-insensitive
  substring search ANDed with exact-match category filters, where `"all"` is a wildcard. The
  documentation category list is `"all"` followed by the distinct non-empty categories in
  first-seen order. The status colour is a case-insensitive lookup with a default. Each list
  has an empty-state message that depends on whether a filter is active.
- **Page load transitions.** A resolved fetch replaces the page's data and a rejected one
  leaves it unchanged; either way loading ends. The detail page is the exception: with no id
  it never fetches and never stops loading.
- **Form transitions.** Each page keeps a field-to-value map in which each edit changes one
  field, plus an `isSubmitting` flag. The request form builds a fixed-shape creation payload;
  success and failure lead to different transitions. The contact form has a delayed
  completion step that always succeeds.
- **Header state.** The mobile menu flag, the exact-path active-link test and the three-way
  choice of authentication controls.

Modules: `Wrappers` (optional values, JavaScript truthiness, fetch outcomes), `Text`
(ASCII lower-casing, substring search, the optional-field search test), `Seqs` (filter,
subsequence, first-seen de-duplication), `Forms` (the field map), `Entities` (the records),
`Views` (status colours and list-region states shared by several pages), then one module per page:
`Dashboard`, `Docs`, `RequestEnvironment`, `EnvironmentDetail`, `Contact`, `Header`, and last
`CrossPage`, which holds the lemmas that relate two pages. Each page's
React state becomes a class whose fields are the `useState` variables. Its handlers are methods
whose `ensures` give the whole new state. The derived values are pure functions, proved
against reference properties in lemmas.

What the external services do appears as parameters:

- A `getAll`/`getById` call is a `Fetch<T>` outcome (`Ok(value)` or `Fail`).
- A `create` call's outcome is a boolean.
- The identifier and timestamp passed to `create` are arguments.
- Toasts are recorded in a `toasts` sequence.
- Navigations are recorded in a `navigations` sequence.
- Identity-service calls are recorded in an `authRequests` sequence.
- Each `setTimeout` is an explicit step that can only run after it has been scheduled
  (a counter of pending steps).

## Model

| member | source | states |
|---|---|---|
| Text.Lower | src/components/pages/DashboardPage.tsx:42-43 | lower-casing keeps the length and lower-cases each character in place |
| Text.LowerIgnoresCase | src/components/pages/DashboardPage.tsx:42-43 | two strings that differ only in letter case lower-case to the same string |
| Text.Contains | src/components/pages/DashboardPage.tsx:42-43 | `String.prototype.includes`; `Text.ContainsIffOccurs` states that it holds iff the query occurs at some index |
| Text.ContainsIffOccurs | src/components/pages/DashboardPage.tsx:42-43 | `includes` holds iff the query occurs at some index of the text |
| Seqs.Filter | src/components/pages/DashboardPage.tsx:41-47 | every element of a filtered list satisfies the callback, and the list is no longer than its input |
| Seqs.FilterMembers | src/components/pages/DashboardPage.tsx:41-47 | an element is in the filtered list iff it is in the input and satisfies the callback |
| Seqs.FilterCounts | src/components/pages/DashboardPage.tsx:41-47 | each satisfying element keeps its multiplicity, every other element is gone: nothing is duplicated |
| Seqs.FilterIsSubsequence | src/components/pages/DashboardPage.tsx:41-47 | the filtered list is a subsequence of the input, so fetch order is kept |
| Seqs.FilterFilter | src/components/pages/DashboardPage.tsx:41-47 | filtering by one test and then another is filtering by their conjunction |
| Seqs.FilterAtMostOne | src/components/Header.tsx:33-39 | if no two elements both pass, at most one element is kept |
| Seqs.Dedup | src/components/pages/DocumentationPage.tsx:31 | first-seen de-duplication against a set of already-seen values; its properties are stated by `Seqs.DedupMembers`, `Seqs.DedupNoDuplicates`, `Seqs.DedupIsSubsequence` and `Seqs.DedupFirstSeenOrder` |
| Seqs.Distinct | src/components/pages/DocumentationPage.tsx:31 | `Array.from(new Set(...))`: de-duplication starting from no seen values, characterised by the same `Dedup*` lemmas |
| Seqs.DedupMembers | src/components/pages/DocumentationPage.tsx:31 | the de-duplicated list holds exactly the input's elements not already seen |
| Seqs.DedupNoDuplicates | src/components/pages/DocumentationPage.tsx:31 | the de-duplicated list has no element twice |
| Seqs.DedupIsSubsequence | src/components/pages/DocumentationPage.tsx:31 | de-duplication keeps input order |
| Seqs.DedupFirstSeenOrder | src/components/pages/DocumentationPage.tsx:31 | the de-duplicated elements come in the order of their first occurrence in the input |
| Forms.WithField | src/components/pages/RequestEnvironmentPage.tsx:87-89 | an edit sets the edited field to the new value, keeps every other field's value, and adds no other key |
| Forms.EditChangesOneField | src/components/pages/ContactPage.tsx:37-39 | the set of changed fields after an edit is the edited field, or empty if the value was already there |
| Text.FieldMatches | src/components/pages/DashboardPage.tsx:42-43 | `field?.toLowerCase().includes(query.toLowerCase())`, shared by the dashboard and documentation searches; its properties are stated by `Text.EmptyQueryMatchesPresent`, `Text.ContainsIffOccurs` and the two `SearchIgnoresCase` lemmas |
| Text.EmptyQueryMatchesPresent | src/components/pages/DashboardPage.tsx:42-43 | an empty query matches every defined text field |
| Views.ToneClass | src/components/pages/DashboardPage.tsx:49-62 | the four class strings `getStatusColor` returns; `Views.ToneClassInjective` states that distinct colours get distinct classes |
| Views.ToneClassInjective | src/components/pages/DashboardPage.tsx:49-62 | two colours have the same class string iff they are the same colour |
| Dashboard.Visible | src/components/pages/DashboardPage.tsx:41-47 | `filteredEnvironments`; its membership, order and multiplicity are stated by `Dashboard.VisibleMembers` and `Dashboard.VisibleIsOrderedSelection` |
| Dashboard.VisibleMembers | src/components/pages/DashboardPage.tsx:41-47 | an environment is shown iff it was fetched, its name or owner contains the query ignoring case, the status filter is `"all"` or equals its status, and the type filter is `"all"` or equals its type |
| Dashboard.VisibleIsOrderedSelection | src/components/pages/DashboardPage.tsx:41-47 | the shown list is a subsequence of the fetched list, and each kept record appears exactly as often as it was fetched |
| Dashboard.DefaultViewShowsNamedOrOwned | src/components/pages/DashboardPage.tsx:42-45 | with an empty query and both filters `"all"`, exactly the records with a name or an owner are shown |
| Dashboard.SearchIgnoresCase | src/components/pages/DashboardPage.tsx:42-43 | replacing the query by any case variant shows the same list |
| Dashboard.StatusFilterNarrows | src/components/pages/DashboardPage.tsx:44 | choosing a status keeps exactly the records with that status from the `"all"`-status list |
| Dashboard.StatusFilterIsCaseSensitive | src/components/pages/DashboardPage.tsx:44-52 | a record with status `"active"` is coloured as active but is hidden by the `"Active"` status filter |
| Dashboard.StatusTone | src/components/pages/DashboardPage.tsx:49-62 | green iff the lower-cased status is `active`, yellow iff `provisioning`, destructive iff `error`; an undefined status gets the subtle colour, as do `stopped` and every other value |
| Dashboard.StatusColor | src/components/pages/DashboardPage.tsx:49-62 | `getStatusColor`: `text-green-600` iff the lower-cased status is `active`, `text-yellow-600` iff `provisioning`, `text-destructive` iff `error`, and `text-subtletext` iff the status is undefined or none of these |
| Dashboard.StatusToneIgnoresCase | src/components/pages/DashboardPage.tsx:49-50 | the colour is the same for any casing of the status |
| Dashboard.StatusToneOfFilterValue | src/components/pages/DashboardPage.tsx:112-116 | the four statuses offered by the status filter get green, subtle, yellow and destructive |
| Dashboard.Render | src/components/pages/DashboardPage.tsx:139-212 | nothing while loading; the list when the filtered list is non-empty; otherwise the "no match" text if a filter is active, else "No environments found." |
| Dashboard.UnfilteredEmptyState | src/components/pages/DashboardPage.tsx:210-212 | with no filter active, "No environments found." is shown iff no fetched record has a name or an owner |
| Dashboard.FilteredOutEmptyState | src/components/pages/DashboardPage.tsx:210-212 | when active filters exclude every fetched record, "No environments match your filters." is shown |
| Dashboard.DashboardPage.constructor | src/components/pages/DashboardPage.tsx:20-24 | the page starts with no environments, loading, an empty query and both filters `"all"` |
| Dashboard.DashboardPage.LoadEnvironments | src/components/pages/DashboardPage.tsx:30-39 | a resolved fetch replaces the list, a rejected one keeps it; loading ends either way; the filters are untouched |
| Dashboard.DashboardPage.SetSearchQuery | src/components/pages/DashboardPage.tsx:100 | the search box sets the query and nothing else |
| Dashboard.DashboardPage.SetStatusFilter | src/components/pages/DashboardPage.tsx:106 | the status select sets the status filter and nothing else |
| Dashboard.DashboardPage.SetTypeFilter | src/components/pages/DashboardPage.tsx:121 | the type select sets the type filter and nothing else |
| Dashboard.MountWithFailedFetch | src/components/pages/DashboardPage.tsx:26-39 | a freshly mounted page whose fetch is rejected shows "No environments found." |
| Docs.PresentCategories | src/components/pages/DocumentationPage.tsx:31 | the mapped-and-filtered categories are non-empty, include every defined non-empty category, and each comes from some article |
| Docs.CategoryColumn | src/components/pages/DocumentationPage.tsx:31 | `docs.map(doc => doc.category)`: as long as the article list, with each article's category at its index |
| Docs.PresentOrderFollowsArticles | src/components/pages/DocumentationPage.tsx:31 | two present categories come in the same order among the present categories as their first articles do among the articles |
| Docs.Categories | src/components/pages/DocumentationPage.tsx:31 | `categories`; its shape is stated by `Docs.CategoriesShape` |
| Docs.CategoriesShape | src/components/pages/DocumentationPage.tsx:31 | the list starts with `"all"`; the remaining entries are pairwise distinct, are exactly the non-empty categories of the articles, and appear in the order of the first article carrying each |
| Docs.AllCategoryCanRepeat | src/components/pages/DocumentationPage.tsx:31 | an article whose category is `"all"` produces a second `"all"` entry |
| Docs.Visible | src/components/pages/DocumentationPage.tsx:33-39 | `filteredDocs`; its membership, order and multiplicity are stated by `Docs.VisibleMembers` |
| Docs.VisibleMembers | src/components/pages/DocumentationPage.tsx:33-39 | an article is shown iff its title, body or keywords contain the query ignoring case and the category is `"all"` or equal to its category; the shown list is an order-preserving subsequence that keeps each kept article's multiplicity |
| Docs.DefaultViewShowsSearchable | src/components/pages/DocumentationPage.tsx:34-37 | with an empty query and `"all"`, exactly the articles having a title, a body or keywords are shown |
| Docs.SearchIgnoresCase | src/components/pages/DocumentationPage.tsx:34-36 | a case variant of the query shows the same articles |
| Docs.UnknownCategoryShowsNothing | src/components/pages/DocumentationPage.tsx:37 | a non-empty category missing from the category list shows no article |
| Docs.EmptyMessage | src/components/pages/DocumentationPage.tsx:163-165 | the "no match" text iff the query is non-empty or the category is not `"all"`, the "none available" text otherwise |
| Docs.Render | src/components/pages/DocumentationPage.tsx:108-165 | nothing while loading; the articles when some are kept; otherwise the empty-state text |
| Docs.FormatDate | src/components/pages/DocumentationPage.tsx:41-48 | an undefined or empty date formats as `""`; any other date is passed to the locale formatter |
| Docs.DocumentationPage.constructor | src/components/pages/DocumentationPage.tsx:11-14 | the page starts with no articles, loading, an empty query and `"all"` selected |
| Docs.DocumentationPage.LoadDocumentation | src/components/pages/DocumentationPage.tsx:20-29 | a resolved fetch replaces the articles, a rejected one keeps them; loading ends either way |
| Docs.DocumentationPage.SetSearchQuery | src/components/pages/DocumentationPage.tsx:77 | the search box sets the query |
| Docs.DocumentationPage.SelectCategory | src/components/pages/DocumentationPage.tsx:89-92 | a category button selects the category it shows |
| Docs.MountWithFailedFetch | src/components/pages/DocumentationPage.tsx:15-31 | a freshly mounted page whose fetch is rejected offers only the `"all"` category and shows "No documentation available at the moment." |
| RequestEnvironment.ActiveTypes | src/components/pages/RequestEnvironmentPage.tsx:44 | the type list offered by the form; its contents are stated by `RequestEnvironment.ActiveTypesSelection` |
| RequestEnvironment.ActiveTypesSelection | src/components/pages/RequestEnvironmentPage.tsx:44 | the offered types are exactly the fetched types whose flag is `true` (undefined and `false` are both excluded), in fetch order, each as often as fetched |
| RequestEnvironment.OptionValue | src/components/pages/RequestEnvironmentPage.tsx:156 | an option's value is the type name, or `""` when the name is undefined |
| RequestEnvironment.InitialForm | src/components/pages/RequestEnvironmentPage.tsx:30-35 | the form starts with exactly the four fields, all `""` |
| RequestEnvironment.CreationPayload | src/components/pages/RequestEnvironmentPage.tsx:57-66 | the record passed to `create`; its contents are stated by `RequestEnvironment.PayloadRoundTrip` |
| RequestEnvironment.PayloadRoundTrip | src/components/pages/RequestEnvironmentPage.tsx:57-66 | the payload has the given identifier, status `"Provisioning"`, the fixed log line, the given timestamp as its provisioned date and the form's four fields unchanged; conversely a fresh request is rebuilt from its fields, id and timestamp |
| RequestEnvironment.RequestEnvironmentPage.constructor | src/components/pages/RequestEnvironmentPage.tsx:26-35 | the page starts loading, not submitting, with the initial form and no effects |
| RequestEnvironment.RequestEnvironmentPage.LoadEnvironmentTypes | src/components/pages/RequestEnvironmentPage.tsx:41-50 | a resolved fetch offers its active types, a rejected one keeps the list; loading ends either way |
| RequestEnvironment.RequestEnvironmentPage.HandleChange | src/components/pages/RequestEnvironmentPage.tsx:87-89 | one field takes the new value, the others keep theirs |
| RequestEnvironment.RequestEnvironmentPage.HandleSubmit | src/components/pages/RequestEnvironmentPage.tsx:52-85 | one `create` call with the payload of the current form; on success the flag stays up, the "submitted" toast shows and one navigation is scheduled; on failure the flag goes down, the destructive "failed" toast shows and nothing is scheduled |
| RequestEnvironment.RequestEnvironmentPage.NavigationTimerFires | src/components/pages/RequestEnvironmentPage.tsx:73-75 | a scheduled step navigates to `/dashboard` |
| RequestEnvironment.RequestEnvironmentPage.Cancel | src/components/pages/RequestEnvironmentPage.tsx:218 | cancel navigates to `/dashboard` at once |
| EnvironmentDetail.StatusTone | src/components/pages/EnvironmentDetailPage.tsx:33-46 | the detail page's status colour, with the same case-insensitive cases and default |
| EnvironmentDetail.FormatDate | src/components/pages/EnvironmentDetailPage.tsx:48-55 | an undefined or empty date reads "N/A"; any other date is passed to the locale formatter |
| EnvironmentDetail.ConfigurationText | src/components/pages/EnvironmentDetailPage.tsx:175 | the configuration details when non-empty, "No configuration details available" when empty or undefined; never empty |
| EnvironmentDetail.LogsText | src/components/pages/EnvironmentDetailPage.tsx:188 | the logs when non-empty, "No recent logs available" when empty or undefined; never empty |
| EnvironmentDetail.Render | src/components/pages/EnvironmentDetailPage.tsx:62-80 | exactly one of spinner (while loading), not-found (loaded, no record) or details (loaded, record), in that priority |
| EnvironmentDetail.EnvironmentDetailPage.constructor | src/components/pages/EnvironmentDetailPage.tsx:13-15 | the page starts loading with no record and no request made |
| EnvironmentDetail.EnvironmentDetailPage.LoadEnvironment | src/components/pages/EnvironmentDetailPage.tsx:21-31 | a falsy id fetches nothing and changes nothing, so loading never ends; otherwise one `getById` call with the id, loading ends, and a rejected fetch keeps the previous record |
| EnvironmentDetail.EnvironmentDetailPage.ChangeId | src/components/pages/EnvironmentDetailPage.tsx:17-19 | a new route id replaces the id and keeps what is shown until the next load |
| EnvironmentDetail.MountWithoutId | src/components/pages/EnvironmentDetailPage.tsx:21-30 | a page mounted without an id shows the spinner after its load, with no request made |
| EnvironmentDetail.MountWithFailedFetch | src/components/pages/EnvironmentDetailPage.tsx:62-66 | a page whose fetch is rejected shows the not-found view |
| Contact.InitialForm | src/components/pages/ContactPage.tsx:15-20 | the form has exactly `name`, `email`, `subject` and `message`, all `""` |
| Contact.ContactPage.constructor | src/components/pages/ContactPage.tsx:14-20 | the page starts with the initial form, not submitting, nothing scheduled |
| Contact.ContactPage.HandleChange | src/components/pages/ContactPage.tsx:37-39 | one field takes the new value, the others keep theirs |
| Contact.ContactPage.HandleSubmit | src/components/pages/ContactPage.tsx:22-27 | the flag goes up and one completion step is scheduled; the form is kept and nothing is persisted |
| Contact.ContactPage.CompleteSubmission | src/components/pages/ContactPage.tsx:27-34 | the completion always succeeds: the thank-you toast, all four fields reset to `""`, the flag down |
| Contact.FillAndSubmit | src/components/pages/ContactPage.tsx:22-39 | whatever was typed, submit plus completion returns the initial form with the flag down and one toast |
| Header.NavLinks | src/components/Header.tsx:12-18 | the five navigation links in display order; `Header.NavTargetsDistinct` states that their targets are pairwise distinct |
| Header.NavTargetsDistinct | src/components/Header.tsx:12-18 | the five navigation targets are pairwise distinct |
| Header.IsActive | src/components/Header.tsx:20 | `isActive`: exact path equality; its consequences are stated by `Header.AtMostOneActive` and `Header.DetailPathHighlightsNothing` |
| Header.ActiveLinks | src/components/Header.tsx:33-39 | the links the desktop navigation highlights for a path; `Header.AtMostOneActive` states that there is at most one |
| Header.AtMostOneActive | src/components/Header.tsx:20 | at most one link is highlighted, and one is iff the path equals a navigation target exactly |
| Header.DetailPathHighlightsNothing | src/components/Header.tsx:20 | `/environment/<id>` highlights no navigation link |
| Header.Nickname | src/components/Header.tsx:56 | `member?.profile?.nickname`: undefined whenever the member or its profile is undefined, otherwise the profile's nickname |
| Header.ProfileLabel | src/components/Header.tsx:56 | the nickname when non-empty, "PROFILE" when absent or empty; never empty |
| Header.AuthRegion | src/components/Header.tsx:48-75 | exactly one of placeholder (while loading), profile link and sign-out (authenticated), sign-in (otherwise), in that priority |
| Header.HeaderState.constructor | src/components/Header.tsx:8 | the mobile menu starts closed |
| Header.HeaderState.ToggleMenu | src/components/Header.tsx:80 | the menu button negates the menu flag |
| Header.HeaderState.MobileLinkClick | src/components/Header.tsx:95 | a link in the open mobile menu (navigation or profile) closes it |
| Header.HeaderState.MobileSignIn | src/components/Header.tsx:129-132 | mobile sign-in asks the identity service to log in and closes the menu |
| Header.HeaderState.MobileSignOut | src/components/Header.tsx:116-119 | mobile sign-out asks the identity service to log out and closes the menu |
| Header.HeaderState.DesktopAuth | src/components/Header.tsx:59-69 | the desktop sign-in/sign-out buttons call the identity service and leave the menu alone |
| CrossPage.StatusToneAgreesWithDashboard | src/components/pages/EnvironmentDetailPage.tsx:33-46 | the detail page colours every status as the dashboard does |
| CrossPage.FormatDateAgreement | src/components/pages/EnvironmentDetailPage.tsx:48-55 | a falsy date reads "N/A" on the detail page and `""` on the documentation page; the two pages show the same text for a date iff it is truthy and their two formatters (long and short month names) agree on it |
| CrossPage.NewRequestOnDashboard | src/components/pages/RequestEnvironmentPage.tsx:63 | a new request shows the provisioning colour, is listed by the dashboard under its type, and passes exactly the `"all"` and `"Provisioning"` status filters |

## Notes

- The status filter compares exactly while the colour ignores case, so both facts hold at once
  (`Dashboard.StatusFilterIsCaseSensitive`).
- A fetch failure is not an error state. The list keeps its previous value, which on mount is
  empty, so the failure looks the same as an empty collection.
- After the route id changes, a rejected fetch keeps the previous environment shown
  (`EnvironmentDetail.EnvironmentDetailPage.LoadEnvironment`).
- After a successful request the form is not cleared; the page navigates away instead. Only
  the contact page clears its form.

## Left out

- JSX markup, CSS classes (beyond the four colour classes), framer-motion animation.
- The home, features, profile and footer components: they hold static content and display
  fallbacks only.
- The router table and the protected-route gate: path matching is done by the routing
  library, and the gate's code is not part of this model.
- The CRUD service, the identity service and the toast facility: their code is not shown.
  Their results are parameters, and their calls are recorded in sequences.
- `console.error` logging on failures.
- `toLowerCase` beyond ASCII letters: no Unicode case mapping is modelled.
- `toLocaleDateString`: a formatter function passed as a parameter stands in for it. The two
  pages use different month styles (`'short'` on the documentation page, `'long'` on the detail
  page), so each page's formatter is a separate parameter.
- The identifier generator and the clock. They are arguments to the payload builder; the
  UUID format, and so its non-emptiness, is not modelled.
- The 1500 ms delays: each timer is one explicit step, and the duration is not modelled.
- Async interleaving and unmount races: each load is one atomic transition, and so is
  `RequestEnvironment.RequestEnvironmentPage.HandleSubmit`, which collapses the awaited `create`
  call, so the state "flag up, `create` still pending" is not a model state. A late result
  arriving for a stale id or an unmounted page is not modelled.
- `e.preventDefault()`, the browser's required-field validation, and the disabled submit
  button. `HandleSubmit` accepts any form in any state.
- Navigation performed by header links: only their effect on the menu flag is modelled.
- The `_createdDate` and `_updatedDate` fields: the pages never read them.
- The `PlatformFeatures` record: it belongs to the features page.
- `estimatedProvisioningTimeMinutes` is a JavaScript number; it is modelled as an integer.
- EnvironmentDetail.EnvironmentDetailPage.ChangeId: it only replaces the id. The reload the
  effect then runs is a separate call to `LoadEnvironment`.
