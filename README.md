# Jobby job portal: a model of its component state

This project models the state logic of the React front end of a job portal.
Five components carry that logic:

- the job list (`JobProfileSection`): search text, employment-type and salary filters, and a fetch status;
- the job page (`JobItemDetails`): one fetch of a job and its similar jobs, decoded from snake_case wire records;
- the profile panel (`ProfileDetails`);
- the login form (`LoginForm`);
- the route guard (`ProtectedRoute`).

Each file has its own Dafny module. Two more modules are shared:
`Http` holds the four-valued `ApiStatus`, the session token, responses,
requests and the `Authorization` header. `Seqs` holds the element-wise list
mapping.

How the code is modelled:

- A component that updates `this.state` becomes a class with the same fields.
  `setState` is immediate assignment.
- The three fetching classes (`JobProfileSection`, `JobItemDetails` and
  `ProfileDetails`) also have a `fetches` field: the requests sent so far, oldest
  first. Each one is recorded with the status the component held when it left, and for
  the job list also with the filters the fetch read. This makes two things
  checkable: "INPROGRESS before the request", and "the refetch sees the updated
  filter".
- A fetch is one sequential step. It takes the response (`ok` flag and body)
  as a parameter.
- The session is `Cookies.get('jwt_token')`, present or absent. It is passed to
  every fetch.
- Every method of those three classes promises `State() == F(old(State()), …)` for
  a pure function `F` of the same module. The properties are proved about those
  functions. Some are proved over whole sequences of user actions (`Run`,
  `ProfileRun`).
- `LoginForm` and `Browser` have no `State()` and no `fetches` field. Their methods
  state each new field value directly. The login request is returned by
  `OnSubmitForm` as its result.

Quirks of the code that the model keeps on purpose:

- The job-list request goes to the constant `http://localhost:5123/`. It builds no
  query from the filters, although the code reads them.
- Employment types are appended to a list. Repeats are kept and nothing removes one.
- An absent token is sent as `Bearer undefined`.
- Decode errors are not handled, and failures carry no reason.
- Overlapping fetches are not discarded when stale.
- A profile response that is not ok changes nothing. The status stays INPROGRESS,
  and the profile's failure view can never be shown.

## Model

| member | source | states |
|---|---|---|
| `Http.BearerHeader` | frontend/src/components/JobProfileSection/index.jsx:77-83 | the header is `Bearer ` followed by the token, or by `undefined` when no token is present |
| `Http.BearerHeaderInjective` | frontend/src/components/JobItemDetails/index.jsx:90-95 | two present tokens that give the same header are the same token |
| `Http.AbsentTokenSentAsUndefined` | frontend/src/components/ProfileDetails/index.jsx:32-37 | an absent token and the token "undefined" give the same header |
| `Seqs.Map` | frontend/src/components/JobItemDetails/index.jsx:71-79 | `.map` keeps length and order, and element i of the result is the function applied to element i of the input |
| `Seqs.MapInverse` | frontend/src/components/JobItemDetails/index.jsx:109-111 | mapping with a function and then with its left inverse gives back the original list |
| `JobProfileSection.JobsRequest` | frontend/src/components/JobProfileSection/index.jsx:77-85 | the job-list request is a GET of `http://localhost:5123/` carrying the bearer header of the session |
| `JobProfileSection.JobsRequestIgnoresFilters` | frontend/src/components/JobProfileSection/index.jsx:77-85 | the request is the same GET of the constant URL with the bearer header, whatever the filters |
| `JobProfileSection.Fetched` | frontend/src/components/JobProfileSection/index.jsx:72-100 | one request is appended, sent while INPROGRESS; an ok response stores the body and sets SUCCESS; any other response sets FAILURE and keeps the list; the filters never change |
| `JobProfileSection.SearchInputSet` | frontend/src/components/JobProfileSection/index.jsx:117-119 | only the search text changes: no fetch, and the status, list and other filters stay the same |
| `JobProfileSection.KeyHandled` | frontend/src/components/JobProfileSection/index.jsx:121-125 | a fetch happens exactly when the key is Enter: it reads the current filters, is sent while INPROGRESS, and ends in SUCCESS with the body or in FAILURE with the old list; for any other key the state is unchanged |
| `JobProfileSection.SalaryRangeSet` | frontend/src/components/JobProfileSection/index.jsx:127-129 | the salary range becomes the chosen id, and then exactly one fetch runs: it reads the updated filters, is sent while INPROGRESS, and ends in SUCCESS with the body or in FAILURE with the old list |
| `JobProfileSection.EmploymentTypeAdded` | frontend/src/components/JobProfileSection/index.jsx:136-147 | the list grows by one, the old list is a prefix, the new type is last, a repeat raises its count by one, and one fetch then reads the longer list, is sent while INPROGRESS, and ends in SUCCESS with the body or in FAILURE with the old list |
| `JobProfileSection.RunFetchCount` | frontend/src/components/JobProfileSection/index.jsx:117-147 | over any sequence of user actions, exactly one request is sent per fetching action; typing, and keys other than Enter, send none |
| `JobProfileSection.RunAccumulatesTypes` | frontend/src/components/JobProfileSection/index.jsx:136-147 | after any sequence of actions, the employment-type list is the old list followed by every type ticked, in order, duplicates included |
| `JobProfileSection.RunShowsLastOkBody` | frontend/src/components/JobProfileSection/index.jsx:87-99 | after any sequence of actions, the list is the body of the last ok response, or the earlier list if no response was ok |
| `JobProfileSection.RunSendsOneRequest` | frontend/src/components/JobProfileSection/index.jsx:77-86 | every request sent over any sequence of actions is the same GET, whatever filters were chosen |
| `JobProfileSection.StepKeepsConsistent` | frontend/src/components/JobProfileSection/index.jsx:72-75 | a single action keeps two facts: the status is INITIAL exactly while no request has been sent, and every request left while INPROGRESS |
| `JobProfileSection.RunKeepsConsistent` | frontend/src/components/JobProfileSection/index.jsx:55-100 | any sequence of actions keeps those two facts |
| `JobProfileSection.RenderJobDetails` | frontend/src/components/JobProfileSection/index.jsx:153-221 | shows "No Jobs Found" exactly when the list is empty, otherwise one card per job in list order; the search box shows the search text |
| `JobProfileSection.RenderJobProfileDetailsList` | frontend/src/components/JobProfileSection/index.jsx:263-276 | SUCCESS shows the job view, FAILURE the failure view, INPROGRESS the loader, INITIAL nothing; each view appears only for its own status |
| `JobProfileSection.JobProfileSection.constructor` | frontend/src/components/JobProfileSection/index.jsx:55-61 | starts with an empty list, empty search text, no employment types, salary range 0, status INITIAL and no request sent |
| `JobProfileSection.JobProfileSection.ComponentDidMount` | frontend/src/components/JobProfileSection/index.jsx:63-65 | mounting performs one fetch |
| `JobProfileSection.JobProfileSection.GetJobDetails` | frontend/src/components/JobProfileSection/index.jsx:72-100 | the new state is `Fetched` of the old; the search button and Retry (lines 172, 205, 242) run this method |
| `JobProfileSection.JobProfileSection.ChangeSearchInput` | frontend/src/components/JobProfileSection/index.jsx:117-119 | the new state is `SearchInputSet` of the old |
| `JobProfileSection.JobProfileSection.OnKeyDown` | frontend/src/components/JobProfileSection/index.jsx:121-125 | the new state is `KeyHandled` of the old |
| `JobProfileSection.JobProfileSection.ChangeSalaryRange` | frontend/src/components/JobProfileSection/index.jsx:127-129 | the new state is `SalaryRangeSet` of the old |
| `JobProfileSection.JobProfileSection.ChangeEmploymentType` | frontend/src/components/JobProfileSection/index.jsx:136-147 | the new state is `EmploymentTypeAdded` of the old |
| `JobItemDetails.FormatSkill` | frontend/src/components/JobItemDetails/index.jsx:71-79 | a skill keeps its image URL, renamed from `image_url` to `imageUrl`, and its name |
| `JobItemDetails.GetFormattedData` | frontend/src/components/JobItemDetails/index.jsx:52-80 | each of the nine top-level fields keeps its value under its camelCase name; the nested life-at-company record is renamed field by field; the skills keep length and order, and element i carries the image URL and name of wire skill i |
| `JobItemDetails.GetFormattedSkillData` | frontend/src/components/JobItemDetails/index.jsx:37-50 | a similar job keeps the values of its seven fields (logo URL, employment type, description, id, rating, location, title) under their camelCase names |
| `JobItemDetails.FormattedDataRoundTrip` | frontend/src/components/JobItemDetails/index.jsx:52-80 | renaming the job and renaming it back gives the wire record again, so no field value is changed or lost |
| `JobItemDetails.FormattedDataOnto` | frontend/src/components/JobItemDetails/index.jsx:52-80 | every view record is the renaming of some wire record |
| `JobItemDetails.FormattedSkillDataRoundTrip` | frontend/src/components/JobItemDetails/index.jsx:37-50 | the similar-job decoder is a renaming of exactly its seven fields, in both directions |
| `JobItemDetails.DecodersAgreeOnSharedFields` | frontend/src/components/JobItemDetails/index.jsx:37-65 | on the seven fields the two shapes share, the reduced decoder and the full decoder agree; the reduced shape has no package, website, life-at-company or skills |
| `JobItemDetails.FormatSimilarJobs` | frontend/src/components/JobItemDetails/index.jsx:109-111 | the similar-jobs list keeps length and order, and element i is the reduced decoding of wire element i |
| `JobItemDetails.SimilarJobsRoundTrip` | frontend/src/components/JobItemDetails/index.jsx:109-111 | renaming the decoded similar jobs back gives the wire list again |
| `JobItemDetails.JobItemRequest` | frontend/src/components/JobItemDetails/index.jsx:86-97 | a GET whose URL is `https://apis.ccbp.in/jobs/` followed by exactly the route id, with the bearer header |
| `JobItemDetails.JobItemUrlNamesTheJob` | frontend/src/components/JobItemDetails/index.jsx:86-91 | two routes that request the same URL have the same id |
| `JobItemDetails.JobItemFetched` | frontend/src/components/JobItemDetails/index.jsx:82-128 | one request is appended, sent while INPROGRESS; an ok response sets the job, the similar jobs and SUCCESS together; any other response sets only FAILURE; SUCCESS always comes with a job |
| `JobItemDetails.RetryRepeatsRequest` | frontend/src/components/JobItemDetails/index.jsx:236-242 | after a failure, Retry sends exactly the request that failed |
| `JobItemDetails.RenderJobViews` | frontend/src/components/JobItemDetails/index.jsx:263-276 | SUCCESS shows the stored job and similar jobs, INPROGRESS the loader, FAILURE the failure view, INITIAL nothing; each view appears only for its own status |
| `JobItemDetails.JobItemDetails.constructor` | frontend/src/components/JobItemDetails/index.jsx:22-26 | starts with the empty job `{}`, no similar jobs, status INITIAL and the route id |
| `JobItemDetails.JobItemDetails.ComponentDidMount` | frontend/src/components/JobItemDetails/index.jsx:28-30 | mounting performs one fetch |
| `JobItemDetails.JobItemDetails.GetJobItem` | frontend/src/components/JobItemDetails/index.jsx:82-128 | the new state is `JobItemFetched` of the old and keeps "SUCCESS comes with a job"; the Retry button (line 240) runs this method |
| `ProfileDetails.DecodeProfile` | frontend/src/components/ProfileDetails/index.jsx:43-47 | decoding always yields a profile record whose name, image URL and short bio are the wire record's `name`, `profile_image_url` and `short_bio` |
| `ProfileDetails.ProfileRoundTrip` | frontend/src/components/ProfileDetails/index.jsx:43-47 | the decoder renames `name`, `profile_image_url` and `short_bio` and keeps their values, in both directions |
| `ProfileDetails.ProfileFetched` | frontend/src/components/ProfileDetails/index.jsx:27-53 | one request to the profile URL is appended, sent while INPROGRESS; an ok response sets the decoded profile and SUCCESS; any other response leaves the status at INPROGRESS and the profile as it was; FAILURE never results |
| `ProfileDetails.FailureUnreachable` | frontend/src/components/ProfileDetails/index.jsx:40-53 | from any state other than FAILURE, no sequence of responses leads to FAILURE |
| `ProfileDetails.NonOkLeavesLoader` | frontend/src/components/ProfileDetails/index.jsx:40-53 | when the last response is not ok, the status ends INPROGRESS |
| `ProfileDetails.InitialUntilFirstFetch` | frontend/src/components/ProfileDetails/index.jsx:14-30 | every fetch sends one request, and the status is INITIAL exactly while none has been sent |
| `ProfileDetails.Render` | frontend/src/components/ProfileDetails/index.jsx:99-112 | SUCCESS shows the profile's three fields, INPROGRESS the loader, FAILURE the retry view, INITIAL nothing; each view appears only for its own status |
| `ProfileDetails.RetryViewUnreachable` | frontend/src/components/ProfileDetails/index.jsx:86-97 | from the initial state the status never reaches FAILURE, so the retry view is never rendered |
| `ProfileDetails.ProfileDetails.constructor` | frontend/src/components/ProfileDetails/index.jsx:14-17 | starts with the empty profile `[]`, status INITIAL and no request sent |
| `ProfileDetails.ProfileDetails.ComponentDidMount` | frontend/src/components/ProfileDetails/index.jsx:19-21 | mounting performs one fetch |
| `ProfileDetails.ProfileDetails.GetProfileDetails` | frontend/src/components/ProfileDetails/index.jsx:27-53 | the new state is `ProfileFetched` of the old and keeps "SUCCESS comes with a profile, FAILURE is never held" |
| `LoginForm.Browser.Session` | frontend/src/components/LoginForm/index.jsx:132 | a token is present exactly when a `jwt_token` cookie is stored, and it is that cookie's value |
| `LoginForm.LoginForm.constructor` | frontend/src/components/LoginForm/index.jsx:8-13 | starts with empty username and password, no error shown and an empty message |
| `LoginForm.LoginForm.OnSubmitSuccess` | frontend/src/components/LoginForm/index.jsx:20-27 | stores the token under `jwt_token` with expiry 30 and path `/`, then replaces the current history entry with `/`; afterwards the session holds that token |
| `LoginForm.LoginForm.OnSubmitFailure` | frontend/src/components/LoginForm/index.jsx:36-38 | sets the error flag and the message; username and password stay |
| `LoginForm.LoginForm.OnSubmitForm` | frontend/src/components/LoginForm/index.jsx:44-60 | posts the current username and password to the login URL; an ok response runs only the success branch with the reply's token; any other response runs only the failure branch with the reply's message and leaves cookies and history alone |
| `LoginForm.LoginForm.OnEnterUsername` | frontend/src/components/LoginForm/index.jsx:67-69 | replaces the username and nothing else |
| `LoginForm.LoginForm.OnChangePassword` | frontend/src/components/LoginForm/index.jsx:78-80 | replaces the password and nothing else |
| `LoginForm.RenderLoginForm` | frontend/src/components/LoginForm/index.jsx:130-156 | a present token redirects to `/`; otherwise the form shows the typed values, and the line `*` plus the message appears exactly when a submit has failed |
| `ProtectedRoute.ProtectedRoute` | frontend/src/components/ProtectedRoute/index.jsx:12-18 | redirects to exactly `/login` exactly when the token is absent; otherwise renders the route with the props unchanged |
| `ProtectedRoute.DecisionDependsOnlyOnPresence` | frontend/src/components/ProtectedRoute/index.jsx:12-18 | two sessions that agree on whether a token is present decide alike, whatever the token values |
| `ProtectedRoute.EmptyTokenAdmits` | frontend/src/components/ProtectedRoute/index.jsx:13-17 | the empty-string token admits |
| `ProtectedRoute.GatesAreComplementary` | frontend/src/components/ProtectedRoute/index.jsx:14 | the guard admits exactly when the login page redirects home, so for every session exactly one of "guard admits" and "login form shown" holds |
| `ProtectedRoute.LoginOpensProtectedRoutes` | frontend/src/components/LoginForm/index.jsx:53-59 | after an ok login response, every protected route admits and the login page redirects home |

## Left out

- Markup, styling, icons, images and the loader spinner are not modelled. The views are reduced to which panel is shown and the data it shows.
- The presentational components (job card, similar-job item, skills card, not-found page, jobs page) and the filter group's wiring are not modelled. The filter group only forwards `event.target.value` or a `salaryRangeId` to the callbacks, so the handlers take that id.
- `fetch`, `response.json()`, `js-cookie` and `history` are replaced by parameters and recorded outputs. The response arrives as a parameter and is not tied to the request sent. Cookie expiry is stored as the number 30 but never takes effect.
- `setState` asynchrony and batching are not modelled, and neither is the interleaving of overlapping fetches. Each fetch starts and settles in one step, so the code's lack of stale-response discard has no counterpart. The INPROGRESS state between start and settle is seen only through the recorded `statusWhenSent`.
- Missing or ill-typed JSON fields (for example a login reply without `error_msg`) are not modelled. Bodies are typed records.
- The source's doc comments are modelled as plain comments wherever they appear, including those fenced by lines of three backticks and those placed inside JSX. Read literally, the text does something else:
  - frontend/src/components/JobItemDetails/index.jsx:101-108. Line 101 has no semicolon, so the backtick line after it tags a template with the decoded job. That call throws inside the fetch handler, and the status would stay INPROGRESS.
  - frontend/src/components/JobItemDetails/index.jsx:246 and frontend/src/components/ProfileDetails/index.jsx:70 put `{JSX.Element}` in JSX. That is an expression reading the undefined name `JSX`, so rendering those views would throw.
  - frontend/src/components/LoginForm/index.jsx:29-35 and 71-77 are template literals in a class body, which does not parse.
  - frontend/src/components/ProtectedRoute/index.jsx:4-11 is a module-level template tagged by the empty template, so loading the module would throw.
  - frontend/src/components/JobProfileSection/index.jsx:111 and 255-256 close a comment with a stray `*/`, which does not parse.
- Fetches that reject, and bodies that `response.json()` cannot parse, are not modelled. In the code either one ends the async handler after INPROGRESS is set, so the component would stay at INPROGRESS and never reach FAILURE.
- `console.log` calls are not modelled.
- JSON numbers such as `rating` are Dafny `real` values that are only copied.
- The inverse renamings (`DetailToWire`, `SimilarToWire`, `EncodeProfile`) are not in the code. They exist only to state that the decoders lose nothing.
