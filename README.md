# BuildConnect: access scoping, record stamping and search, in Dafny

BuildConnect is a marketplace where buyers, builders and contractors register,
owners publish construction projects, contractors bid on them, and anyone
browses contractors and building plots. Its server is a set of thin route
handlers over four document collections (users, projects, bids, plots); its
only rules are who may see or write what, which fields the server stamps
itself, what each collection's schema accepts, and how the two search pages
filter what they fetched.

The model:

- `documents.dfy`, `user_model.dfy`, `project_model.dfy`, `bid_model.dfy`,
  `plot_model.dfy`: one module per schema. A document is a datatype whose
  fields are `Option`s (`None` is a field the document does not have); each
  schema is a validity predicate (required fields, enums, the 0..100
  progress range), and `NewProject` / `NewBid` fill the schema defaults.
- `api.dfy`: class `Api.Store` holds the four collections as sequences plus
  the next fresh id. Its methods are the handlers: `Register`,
  `ListProjects`, `CreateProject`, `CreateBid`, `ListBids`,
  `ListContractors`, `GetProfile`, `UpdateProfile`. The session is a
  parameter `Option<Caller>` (`None` = no session), the password hash is a
  function parameter `hash`. `Store.Valid()` is what every handler keeps:
  unique emails, unique user ids, and schema-valid projects, bids and plots.
  Read-only handlers have no `modifies` clause, so they change no table.
- `seqs.dfy`: how a query or `Array.filter` is specified. `Selects(r, s, p)`
  says `r` is an order-preserving subsequence of `s`, every element of `r`
  satisfies `p`, and `r` has as many elements as `s` has matching ones;
  `SelectsUnique` proves that this determines `r`.
- `text.dfy`: ASCII `toLowerCase` and `includes`.
- `contractor_search.dfy`, `plot_search.dfy`: the two client-side search
  filters as pure functions over the page's lists.

Behaviour the code has and the model keeps:

- A profile update (`findByIdAndUpdate`) runs no schema validators: it can
  store an unknown `userType` or a plain-text password. Only the unique
  email index can refuse it, with 500.
- Registration with a missing password fails at hashing, with 500; a missing
  email matches an existing user only if that user also has none.
- Bids and projects are stamped with the caller's id, whatever the body
  says. Nothing checks that a bid's `projectId` names a stored project, so no
  such invariant is kept.
- The mapper rejects an empty string in a required String field.
- The owner's bid listing attaches the stored contractor document, password
  hash included (see Findings).

## Model

| member | source | states |
|---|---|---|
| `UserModel.ValidUserFields` | models/User.ts:11-28 | a valid user has an email, a password, and a `userType` among buyer, builder, contractor |
| `UserModel.OptionalFieldsFree` | models/User.ts:11-28 | `name` and `image` never affect validity |
| `UserModel.MinimalUserValid` | models/User.ts:11-28 | a record without name and image is valid |
| `UserModel.EmailTaken` | app/api/auth/register/route.ts:15-16 | true if and only if some stored user has the email |
| `UserModel.AppendEmailsUnique` | models/User.ts:13-17 | appending keeps emails unique if and only if the new email is not yet taken |
| `UserModel.FindById` | app/api/users/profile/route.ts:17 | returns the first index holding the id, or None exactly when no user has it |
| `UserModel.WithoutPassword` | app/api/auth/register/route.ts:34 | putting the password back into the public view restores the stored user, so only the password is dropped |
| `UserModel.WithoutPasswordHidesPassword` | app/api/contractors/route.ts:19 | the public view is the same whatever the password is |
| `UserModel.ApplyPatch` | app/api/users/profile/route.ts:34-35 | the id never changes, an empty patch changes nothing; each of name, email, password, userType and image takes the patch's value when given and keeps the stored one when absent |
| `UserModel.PatchPasswordOnlyTouchesPassword` | app/api/users/profile/route.ts:35 | the patched password does not change any field the response shows |
| `UserModel.PatchSkipsValidation` | app/api/users/profile/route.ts:35 | a valid user patched with `userType` "admin" is stored invalid: the body is not filtered |
| `ProjectModel.NewProject` | models/Project.ts:3-26 | absent status becomes Planning and absent progress 0; the result is valid if and only if name and owner are present and the given status and progress are in range |
| `ProjectModel.ValidProjectRanges` | models/Project.ts:10-20 | a valid project's status is one of the three and its progress is in 0..100 |
| `ProjectModel.NameAndOwnerRequired` | models/Project.ts:5-25 | a project without name or userId is invalid |
| `ProjectModel.FindProject` | app/api/bids/route.ts:42 | a found project is stored and has the id; None means no project has it |
| `BidModel.NewBid` | models/Bid.ts:3-24 | absent status becomes Pending; the bid is valid if and only if project, contractor and amount are present and the given status is allowed |
| `BidModel.ValidBidFields` | models/Bid.ts:5-24 | a valid bid has projectId, contractorId, amount, and a status among the three |
| `BidModel.DescriptionOptional` | models/Bid.ts:19 | the description never affects validity |
| `PlotModel.RequiredFields` | models/Plot.ts:5-33 | a valid plot has address, price, size, coordinates, description and a zoning among the four |
| `PlotModel.EmptyUtilitiesOk` | models/Plot.ts:34-39 | an empty utilities list is allowed |
| `Api.Store.Register` | app/api/auth/register/route.ts:6-44 | taken email: 400 and no insert; missing password or schema violation: 500 and no insert; otherwise exactly one user appended with `hash(password)`, earlier users kept, and 201 with that user minus the password; emails stay unique |
| `Api.Store.ListProjects` | app/api/projects/route.ts:7-22 | no session: 401; otherwise exactly the caller's projects in stored order |
| `Api.Store.CreateProject` | app/api/projects/route.ts:24-44 | no session: 401, table unchanged; the stored project's userId is the caller's whatever the body says; valid: appended and returned with 201; invalid: 500 and nothing added |
| `Api.Store.CreateBid` | app/api/bids/route.ts:8-28 | no session or not a contractor: 401, table unchanged; contractorId is the caller's; valid: appended with 201; invalid: 500 and nothing added |
| `Api.Store.ListBids` | app/api/bids/route.ts:30-51 | no session: 401; contractor: exactly the bids with their contractorId, each with its project; others: exactly the bids on a project the caller owns, each with the whole stored user document its contractorId names |
| `Api.OwnerJoinAgrees` | app/api/bids/route.ts:44-45 | the two-step id-set query selects a bid exactly when the bid is on a project the caller owns |
| `Api.PublicById` | app/api/bids/route.ts:45 | returns the password-less record of a stored user with that id, or None when there is none |
| `Api.PopulateProject` | app/api/bids/route.ts:42 | keeps the bid and attaches the stored project its projectId names, or null when there is none |
| `Api.PopulateContractor` | app/api/bids/route.ts:45 | keeps the bid and attaches the record, without password, of a stored user with the bid's contractorId; null only when the bid has none or no user has it |
| `Api.PopulateContractorAsWritten` | app/api/bids/route.ts:45 | attaches a stored user document with the bid's contractorId; null only when the bid has none or no user has it |
| `Api.PopulateAgreesUpToPassword` | app/api/bids/route.ts:45 | the corrected expansion finds the same contractor as the written one and only drops the password |
| `Api.OwnerQuerySelects` | app/api/bids/route.ts:44-45 | the id-set query selects, in stored order, exactly the bids on a project the caller owns |
| `Api.OwnerBidsCorrected` | app/api/bids/route.ts:44-45 | corrected owner listing: exactly the bids on the caller's projects, each with the contractor's record without password |
| `Api.OwnerListingExposesHash` | app/api/bids/route.ts:45 | as written, the attached contractor carries the stored password hash |
| `Api.Store.ListContractors` | app/api/contractors/route.ts:7-26 | no session: 401; otherwise exactly the builders and contractors in stored order, password-less; every stored one is there and no buyer |
| `Api.Store.GetProfile` | app/api/users/profile/route.ts:7-22 | no session: 401; otherwise the caller's record without the password, or null exactly when no user has the caller's id |
| `Api.Store.UpdateProfile` | app/api/users/profile/route.ts:24-40 | no session: 401, no change; the caller's record gets the body's fields, every other user is unchanged, and the updated record is returned without password; an email taken by another user: 500 and no change |
| `Api.ReplaceKeepsEmailsUnique` | app/api/users/profile/route.ts:35 | replacing one user keeps emails unique when no other user has the new email |
| `Text.Lower` | app/contractors/page.tsx:63-64 | `toLowerCase` keeps the length and lower-cases each character |
| `Text.Contains` | app/contractors/page.tsx:63-64 | `includes` never holds for a term longer than the string, and always holds for the empty term |
| `Text.ContainsAt` | app/contractors/page.tsx:63-64 | `includes` holds if and only if the term occurs at some position |
| `ContractorSearch.InitialSearchShowsNothing` | app/contractors/page.tsx:19-21 | a search on the initial page shows nothing and changes nothing |
| `ContractorSearch.OnFetch` | app/contractors/page.tsx:33-52 | success: the full and the shown list both become the fetched data; failure: the error message is set; 401: nothing changes |
| `ContractorSearch.Matches` | app/contractors/page.tsx:62-64 | the empty term matches everyone; a name or an email that includes the term is a match; a nameless contractor matches exactly through the email; a match needs a name or email at least as long as the term |
| `ContractorSearch.Search` | app/contractors/page.tsx:61-65 | exactly the contractors whose lower-cased name or email includes the lower-cased term, in list order |
| `ContractorSearch.HandleSearch` | app/contractors/page.tsx:59-67 | the shown list is the search of the full list; nothing else changes |
| `ContractorSearch.HandleSearchIgnoresShown` | app/contractors/page.tsx:61 | the result does not depend on what was shown before |
| `ContractorSearch.EmptyTermKeepsAll` | app/contractors/page.tsx:61-65 | the empty term keeps every contractor |
| `ContractorSearch.NamelessMatchesByEmail` | app/contractors/page.tsx:63-64 | a contractor without a name matches only through the email |
| `ContractorSearch.SearchIgnoresCase` | app/contractors/page.tsx:63-64 | a term and its lower-cased form find the same contractors |
| `ContractorSearch.FetchThenEmptySearch` | app/contractors/page.tsx:44-45 | after a fetch, searching with the empty term shows the full list |
| `PlotSearch.ExtractProperties` | app/plots/page.tsx:154-156 | read back as features, the result is exactly the features that have properties, in order; never longer than the feature list |
| `PlotSearch.LoadAllProperties` | app/plots/page.tsx:138-164 | before the map loads, or without `features`, the properties stay as they were; otherwise they are the extracted ones |
| `PlotSearch.LocationMatches` | app/plots/page.tsx:176-177 | the empty term matches every plot; a plot matches if and only if its city or its state includes the term; a match needs a city or state at least as long as the term |
| `PlotSearch.SearchProperties` | app/plots/page.tsx:173-179 | exactly the current properties whose lower-cased city or state includes the lower-cased term, in order |
| `PlotSearch.OnSearch` | app/plots/page.tsx:167-211 | before the map loads, nothing changes; the empty term reloads; any other term narrows the current list |
| `PlotSearch.SearchIdempotent` | app/plots/page.tsx:175-179 | searching twice with the same term gives the same as once |
| `PlotSearch.SearchTwice` | app/plots/page.tsx:175 | after two searches every shown plot was loaded and matches both terms |
| `PlotSearch.SearchCannotWiden` | app/plots/page.tsx:175 | as written, "reno" then "waco" shows nothing although a Waco plot was loaded |
| `PlotSearch.OnSearchFromLoaded` | app/plots/page.tsx:173-179 | corrected: a non-empty term selects from every loaded plot; the empty term reloads both lists |
| `PlotSearch.SearchFromLoadedForgetsEarlierTerm` | app/plots/page.tsx:173-179 | corrected: an earlier term has no effect on a later search |

## Findings

| source | as written | input that shows it | evidently intended | confidence | as-written member | corrected member |
|---|---|---|---|---|---|---|
| app/api/bids/route.ts:45 | `populate("contractorId")` attaches the whole contractor document, password hash included, to the owner's listing | a bid on the caller's project by a stored contractor whose password field is `$2a$10$hash` | the contractor without the password, as /api/contractors and the profile routes return users | medium, not executed | `Api.OwnerListingExposesHash` | `Api.OwnerBidsCorrected` |
| app/plots/page.tsx:175 | the search filters `properties`, which already holds the previous search's result | plots in Reno NV and Waco TX; search "reno", then "waco" | select from every loaded plot, so a new term can widen the result | medium, not executed | `PlotSearch.SearchCannotWiden` | `PlotSearch.OnSearchFromLoaded` |

`Api.Store.ListBids` keeps the as-written expansion and the corrected
`Api.OwnerBidsCorrected` is proved beside it. The page
model keeps the as-written `PlotSearch.OnSearch` and proves the corrected
`PlotSearch.OnSearchFromLoaded` beside it.

## Left out

- Database connection, connection pooling, query casting errors and other
  driver failures: the in-memory collections cannot fail, so the 500 paths of
  the GET handlers are not modelled.
- Session resolution: the session is a parameter. The SSE feed, file upload,
  socket chat and messaging component are not part of this model (timers,
  streams, the file system and networking).
- Password hashing: `hash` is an arbitrary function parameter; salts, the cost
  factor 10 and bcrypt itself are not modelled.
- JSON `null` values, fields outside the schema, a body that supplies `_id`,
  non-string values where strings are expected (such as an operator object
  as email), and the `timestamps` fields.
- `price`, `size`, `latitude`, `longitude`, `amount` and `progress` are
  integers here; the source's numbers are floating point.
- `toLowerCase` is ASCII-only here; JavaScript lower-cases all of Unicode.
- The plots collection has no handler in the source, so `Store` only keeps
  it valid; the /api/plots route the page fetches is not part of this model,
  and the page's `PlotProperties` are modelled as that route's output.
- React state scheduling, the 500 ms debounce, the effect re-running on every
  render (its dependency list holds a function recreated each render), stale
  closures, and all Mapbox work (map setup, layers, popups, the regex layer
  filter, bounds fitting).
- Top-level update operators in the PUT /api/users/profile body (`$unset`,
  `$rename`, `$inc`, ...): the route passes the body to `findByIdAndUpdate`
  as the update document, so such a body can remove or rename stored fields,
  the caller's email and password hash included. `UserPatch` only sets
  fields or leaves them alone, so the model does not capture deletion.
- Api.Store.Register: the 500 body for a failed insert is `{ error: "Error
  creating user" }` only; the source also sends `details` with the thrown
  error's message, which comes from the database driver and has no model here.
- Concurrency between requests: every handler runs as one atomic step.
- Fresh document ids come from a counter in the store; ObjectId generation
  is not modelled.
