# lms-admin: a verified model of the admin console's rules

lms-admin is the administration console of a learning-management system. Super-admins use it to
manage organizations, and an organization's admins use it to manage users, courses and
enrollments. It is a thin front end over a remote REST backend: the rules worth stating are
small ones spread through its components. This project models those rules in Dafny and proves
what they promise:

- the API client's two-slot token store and its Bearer header;
- the client's refresh of an expired access token, retrying a request at most once, and how
  that interceptor settles the login, registration and logout calls;
- normalisation of the login reply and the ordered classification of login errors;
- the authentication context's role-to-route map and the session user that login and logout set;
- the form validators and payload builders: required fields, the admin e-mail pattern, the
  password length, "empty becomes absent" and the organization settings;
- the case-insensitive search filters of the list pages, which return order-preserving subsequences;
- lookups by id, top-N slices, role counts and sums in which a missing value counts as 0;
- the display decisions: relative-time buckets, status colours and badges, the active navigation
  item, the data table's columns and page buttons, and icon alias resolution.

One Dafny module stands for each source file:

| module | file |
|---|---|
| `Api` | src/lib/api.ts |
| `Auth` | src/contexts/AuthContext.tsx |
| `AdminLoginForm` | src/components/admin/admin-login-form.tsx |
| `NavMain` | src/components/nav-main.tsx |
| `OnboardingForm` | src/components/onboarding/onboarding-form.tsx |
| `OrganizationForm` | src/components/super-admin/organization-form.tsx |
| `AdminOrganizationsPage` | src/app/admin/organizations/page.tsx |
| `AdminUsersPage` | src/app/admin/users/page.tsx |
| `SuperAdminUsersPage` | src/app/super-admin/users/page.tsx |
| `SuperAdminOrganizationsPage` | src/app/super-admin/organizations/page.tsx |
| `AdminCoursesPage` | src/app/admin/courses/page.tsx |
| `SuperAdminCoursesPage` | src/app/super-admin/courses/page.tsx |
| `AdminEnrollmentsPage` | src/app/admin/enrollments/page.tsx |
| `AdminAnalyticsPage` | src/app/admin/analytics/page.tsx |
| `AdminSectionCards` | src/components/admin/admin-section-cards.tsx |
| `AdminDataTable` | src/components/admin/admin-data-table.tsx |
| `EnhancedTable` | src/components/ui/enhanced-table.tsx |
| `SystemHealth` | src/components/super-admin/system-health.tsx |
| `Icons` | src/lib/icons.tsx |

Several modules share the following:

- `Wrappers`: `Option`, `Result` and `Outcome`.
- `Text`: JavaScript truthiness, `||` and `String` rendering of optional strings, ASCII
  lower-casing, substring search, JavaScript white space and trim, UTF-16 length, decimal
  rendering and `parseInt`.
- `Lists`: filter, take, find, count and sum, with their lemmas.
- `Entities`: the records of src/lib/types.ts.
- `Forms`: `FormData` reads and the organization request.
- `Search`: the lower-cased substring match behind every search box.

The modelling conventions are these:

- Strings are `seq<char>`.
- A form's `FormData` is a `map<string, string>`. A missing name reads as `None`. The
  validators treat `None` and "" alike through `Truthy`, and `OptionalField` maps both to
  `None`.
- JavaScript `parseInt` is `Text.ParseInt`. Its result is `Int(n)` or `NaN`.
- Times are integer milliseconds.
- The stats averages are `real`.
- State the source keeps in React hooks or in the client object is held in a Dafny `class`. Its
  handlers are methods. Server replies, `confirm` answers, the clock and the stored
  organizations are method parameters.

## Model

| member | source | states |
|---|---|---|
| Api.BearerValue | src/lib/api.ts:43 | the header value is "Bearer " followed by exactly the token |
| Api.ParseBearer | src/lib/api.ts:43 | a value yields a token iff it starts with "Bearer " |
| Api.BearerRoundTrip | src/lib/api.ts:43 | reading the token back out of the header value built for it gives that token |
| Api.AttachToken | src/lib/api.ts:39-48 | the Authorization header carries the stored token exactly when a truthy token is stored; otherwise the headers are unchanged; no other header is touched or added |
| Api.RequestConfig.constructor | src/lib/api.ts:54-57 | a new request carries its headers and is not yet flagged for retry |
| Api.NormalizeLogin | src/lib/api.ts:153-170 | succeeds iff `accessToken` or else `token` is truthy, `refreshToken` or else `refresh` is truthy, and a user is present; the session carries exactly those values; the failure message names the missing tokens before the missing user |
| Api.IsTimeout | src/lib/api.ts:175 | an error is a timeout iff its code is `ECONNABORTED` or its message contains "timeout" at some position |
| Api.ClassifyRequestError | src/lib/api.ts:171-197 | the message is never empty; a timeout gives the cold-start message, then a server response gives its `message`, else its `error`, else "Login failed", then a sent request gives the unreachable message, else the error's own message or "Login failed" |
| Api.NormalizationErrorPassesThrough | src/lib/api.ts:157-163 | a rejection raised inside the try block reaches the caller with its own message |
| Api.TimeoutBeatsResponse | src/lib/api.ts:175-187 | an `ECONNABORTED` error is reported as a cold start even when the server answered |
| Api.ServerMessageShown | src/lib/api.ts:182-187 | a server `message` is shown verbatim unless the error is a timeout |
| Api.LoginOutcome | src/lib/api.ts:137-199 | a login succeeds iff the server answered with a body that normalises, and then the session is exactly `NormalizeLogin` of the body; a body that does not normalise fails with `ClassifyRequestError` of its message, and a thrown error with `ClassifyRequestError` of that error; every failure carries a non-empty message |
| Api.RefreshResult | src/lib/api.ts:102-134 | fails with "No refresh token" without a truthy stored token; succeeds iff a token is stored and the endpoint grants, with the new access token as `String` renders it; a refusal gives the endpoint's error |
| Api.Settle | src/lib/api.ts:51-76 | anything but a 401 is final; after a 401 a successful refresh makes the resent request's outcome final and a failed one makes the refresh error final |
| Api.TokensAfter | src/lib/api.ts:51-76 | the tokens are unchanged without a 401, the new pair after a successful refresh, and both cleared after a failed one |
| Api.LocationAfter | src/lib/api.ts:66-71 | the browser moves, and then to /login, exactly after a 401 whose refresh failed |
| Api.LoginCall | src/lib/api.ts:137-199 | a login is `LoginOutcome` of the interceptor-settled request, and exactly `LoginOutcome` of the first reply when that is not a 401 |
| Api.OrgQuery | src/lib/api.ts:257-267 | without a truthy organization id the URL is the bare path; with one it is the path followed by "?organizationId=" and the id |
| Api.AllUsersUrlIsOrgQuery | src/lib/api.ts:269-273 | the special "all" branch of `getAllUsers` builds the same URL as the general rule, for every id |
| Api.UserStatsUrl | src/lib/api.ts:257-258 | the `getUserStats` URL reads back as "/admin/stats/users" and the organization id, the id only when truthy; without a truthy id it is exactly "/admin/stats/users" |
| Api.CourseStatsUrl | src/lib/api.ts:263-264 | the `getCourseStats` URL reads back as "/admin/stats/courses" and the organization id, the id only when truthy; without a truthy id it is exactly "/admin/stats/courses" |
| Api.AllUsersUrl | src/lib/api.ts:269-270 | the `getAllUsers` URL, "all" branch included, reads back as "/admin/users" and the organization id, the id only when truthy; without a truthy id it is exactly "/admin/users" |
| Api.EnrollmentsUrl | src/lib/api.ts:312-313 | the `getEnrollments` URL reads back as "/admin/enrollments" and the organization id, the id only when truthy; without a truthy id it is exactly "/admin/enrollments" |
| Api.CoursesUrl | src/lib/api.ts:338-339 | the `getCourses` URL reads back as "/courses" and the organization id, the id only when truthy; without a truthy id it is exactly "/courses" |
| Api.OrgQueryRoundTrip | src/lib/api.ts:312-316 | for a path without '?', the URL splits back into that path and the id, the id only when it was truthy |
| Api.RejectedLoginShowsNoRefreshToken | src/lib/api.ts:51-76 | a login rejected with 401 while no refresh token is stored fails with "No refresh token", clears both tokens and sends the browser to /login |
| Api.RejectedLoginShowsServerMessage | src/lib/api.ts:182-187 | the same 401 classified without the refresh detour shows the server's own message |
| Api.MissingTokenSentAsUndefined | src/lib/api.ts:39-48 | a missing token stored as "undefined" is later sent as "Bearer undefined" |
| Api.Client.constructor | src/lib/api.ts:80-88 | a client holds whatever tokens are stored, with no refresh in flight |
| Api.Client.SetTokens | src/lib/api.ts:90-94 | both slots are written together; nothing else changes |
| Api.Client.ClearTokens | src/lib/api.ts:96-100 | both slots are emptied; nothing else changes |
| Api.Client.AuthorizeRequest | src/lib/api.ts:39-48 | the outgoing headers become `AttachToken` of the stored access token; the retry flag is untouched |
| Api.Client.RefreshAccessToken | src/lib/api.ts:102-134 | the result is `RefreshResult` of the stored refresh token; the stored token is sent only when truthy; a granted refresh stores both new tokens, each as `String` renders it, so a missing one is stored as "undefined"; a failure leaves the tokens; the in-flight marker is clear afterwards in every case |
| Api.Client.OnResponseError | src/lib/api.ts:51-76 | only a 401 on an unflagged request refreshes; it flags the request first, so a request is refreshed at most once; the request is resent iff the refresh succeeds, with "Bearer " and the new token; the tokens and location become `TokensAfter` and `LocationAfter`, so a failed refresh clears both tokens, goes to /login and rejects with the refresh error; anything else is rejected unchanged with nothing modified |
| Api.Client.Send | src/lib/api.ts:51-76 | a request through the interceptor settles as `Settle` of its first outcome, the refresh result and the resent outcome, and leaves the tokens and location as `TokensAfter` and `LocationAfter` say |
| Api.Client.Login | src/lib/api.ts:137-199 | the result is `LoginCall`: the request settled by the interceptor, then normalised and classified; on success exactly the returned tokens are stored; on failure the tokens are as the interceptor left them |
| Api.Client.Register | src/lib/api.ts:201-206 | the result is the request settled by the interceptor; an answered body's tokens are stored as `String` renders them, "undefined" when missing; an error leaves the tokens as the interceptor left them, cleared after a failed refresh |
| Api.Client.Logout | src/lib/api.ts:208-214 | both tokens are cleared whether or not the server call failed; the call passes iff the settled request was answered, and otherwise passes on the settled error, the refresh error after a failed refresh |
| Auth.RedirectPath | src/contexts/AuthContext.tsx:57-70 | SUPER_ADMIN goes to /super-admin, ADMIN to /admin, INSTRUCTOR to /instructor, every other role to /student/dashboard |
| Auth.RedirectPathSeparatesRoles | src/contexts/AuthContext.tsx:57-70 | two different staff roles never share a landing page, and no staff role lands on the student page |
| Auth.LoginFailureMessage | src/contexts/AuthContext.tsx:99-103 | the rethrown message is the error's own message when truthy, then the response's `message`, then its `error`, then "Login failed. Please check your credentials." |
| Auth.LoginFailureShowsClientMessage | src/contexts/AuthContext.tsx:92-103 | since the client's errors always carry a message, the context rethrows the client's message unchanged |
| Auth.UseAuth | src/contexts/AuthContext.tsx:152-158 | the context is returned iff a provider supplies one; otherwise the "within an AuthProvider" error |
| Auth.AuthProvider.IsAuthenticated | src/contexts/AuthContext.tsx:140 | authenticated exactly while a user is held |
| Auth.AuthProvider.constructor | src/contexts/AuthContext.tsx:20-22 | the provider starts with no user and loading |
| Auth.AuthProvider.CheckAuth | src/contexts/AuthContext.tsx:26-52 | loading ends on every path and the user is untouched |
| Auth.AuthProvider.Login | src/contexts/AuthContext.tsx:72-105 | authenticated iff the client's `LoginCall` succeeded; success sets the user to the reply's user, stores its tokens and routes to its role's path; failure clears the tokens and the user and rethrows the classified message; the location is as the interceptor left it |
| Auth.AuthProvider.Register | src/contexts/AuthContext.tsx:107-116 | after the interceptor, an answered body sets the user and stores its tokens as `String` renders them; success iff it has a user, which routes by role; a body without a user fails with the fallback; a thrown error leaves the user and route, leaves the tokens as the interceptor left them, and rethrows the response message or "Registration failed. Please try again." |
| Auth.AuthProvider.Logout | src/contexts/AuthContext.tsx:118-128 | whether or not the server call fails, the user is cleared, both tokens are cleared and the route is /login; the location is as the interceptor left it |
| AdminLoginForm.LoginForm.constructor | src/components/admin/admin-login-form.tsx:25-28 | the form starts with no error, not submitting, over the stored organizations |
| AdminLoginForm.LoginForm.ShowsCreateHint | src/components/admin/admin-login-form.tsx:78 | the "create one" hint is shown exactly when no organization is stored |
| AdminLoginForm.LoginForm.HandleSubmit | src/components/admin/admin-login-form.tsx:30-52 | an empty organization sets "Please select an organization", resets submitting and sends nothing; otherwise exactly the form's email, password and organization are sent; a failure shows its message or the fallback and resets submitting; a success leaves submitting set |
| NavMain.NavSections | src/components/nav-main.tsx:38 | the given sections win; otherwise the items become exactly one unlabelled section holding them; with neither there are no sections |
| NavMain.IsActiveIff | src/components/nav-main.tsx:51-54 | an item is active iff the path equals its url, or the url is not a dashboard root and the path starts with the url and "/" |
| NavMain.RootsMatchExactly | src/components/nav-main.tsx:52-53 | "/admin" and "/super-admin" are active only on an exact match |
| NavMain.SeparatorRequired | src/components/nav-main.tsx:54 | "/admin/usersx" does not activate "/admin/users" |
| NavMain.NoPathNoActive | src/components/nav-main.tsx:51-54 | with no pathname no item is active |
| Forms.Field | src/components/onboarding/onboarding-form.tsx:39-46 | a field reads as its submitted value, and is absent exactly when the form does not carry it |
| Forms.OptionalField | src/components/onboarding/onboarding-form.tsx:41-42 | `value \|\| undefined`: absent exactly when missing or empty, otherwise the submitted value |
| Forms.ParsedField | src/components/onboarding/onboarding-form.tsx:47-49 | parsed with `parseInt` exactly when the field is non-empty, absent otherwise |
| Forms.BuildOrganizationRequest | src/app/admin/organizations/page.tsx:130-141 | name, slug, the admin e-mail, names and password are copied as given; an empty domain or description becomes absent; the student id is parsed only when present; no settings yet |
| Forms.RequiredFilledIff | src/app/admin/organizations/page.tsx:143-150 | the required check passes iff all six fields (name, slug, adminEmail, adminFirstName, adminLastName, adminPassword) are present and non-empty |
| OnboardingForm.ValidEmailSound | src/components/onboarding/onboarding-form.tsx:60 | every address the scan accepts splits as part "@" part "." part, with each part non-empty and free of white space and '@' |
| OnboardingForm.SplitAtAt | src/components/onboarding/onboarding-form.tsx:60 | an accepted address cut at its '@' gives a pattern part and a clean domain with an inner '.' |
| OnboardingForm.SplitAtDot | src/components/onboarding/onboarding-form.tsx:60 | a clean domain cut at an inner '.' gives two pattern parts around that dot |
| OnboardingForm.ValidEmailComplete | src/components/onboarding/onboarding-form.tsx:60 | every address of that shape is accepted by the scan |
| OnboardingForm.ValidEmailIff | src/components/onboarding/onboarding-form.tsx:60-64 | the scan (no white space, exactly one '@' with text before it, an inner '.' after it) accepts exactly what `^[^\s@]+@[^\s@]+\.[^\s@]+$` matches |
| OnboardingForm.Validate | src/components/onboarding/onboarding-form.tsx:52-70 | passes iff the required fields are filled, the e-mail is valid and the password is at least 6 UTF-16 code units long; the checks run in that order and only the first failure is reported |
| OnboardingForm.PasswordBoundary | src/components/onboarding/onboarding-form.tsx:66-70 | six code units pass and five fail with the password message |
| OnboardingForm.ThreeAstralCharactersPass | src/components/onboarding/onboarding-form.tsx:66-67 | three characters beyond U+FFFF count as six and make a long-enough password |
| OnboardingForm.Onboarding.constructor | src/components/onboarding/onboarding-form.tsx:28 | the form starts with no error of its own |
| OnboardingForm.Onboarding.DisplayError | src/components/onboarding/onboarding-form.tsx:78 | the form's own error when non-empty, otherwise the parent's error |
| OnboardingForm.Onboarding.HandleSubmit | src/components/onboarding/onboarding-form.tsx:30-76 | the payload is submitted iff every check passes, and then exactly as read from the form; a failed check shows its message; a failed submission shows its message, else the parent's error, else the fixed fallback |
| OrganizationForm.WithCheckbox | src/components/super-admin/organization-form.tsx:166-199 | a ticked checkbox without a value attribute submits "on"; an unticked one is not submitted; other fields are kept |
| OrganizationForm.SettingsAsWritten | src/components/super-admin/organization-form.tsx:47-59 | `maxUsers` is parsed when non-empty; each flag is true iff its form value is exactly "true" |
| OrganizationForm.CheckboxFlagsAlwaysFalse | src/components/super-admin/organization-form.tsx:48-50 | whatever boxes are ticked, the settings as written carry three false flags |
| OrganizationForm.Settings | src/components/super-admin/organization-form.tsx:47-59 | `maxUsers` is parsed when non-empty; each flag is true iff its box was ticked |
| OrganizationForm.CheckboxFlagsFollowTicks | src/components/super-admin/organization-form.tsx:48-50 | with the corrected reading, each flag equals whether its box was ticked |
| OrganizationForm.OrganizationFormState.constructor | src/components/super-admin/organization-form.tsx:28-31 | no error; the settings block starts open iff the organization being edited has settings |
| OrganizationForm.OrganizationFormState.ToggleSettings | src/components/super-admin/organization-form.tsx:136-142 | the settings block follows its checkbox; the error is kept |
| OrganizationForm.OrganizationFormState.SubmitLabel | src/components/super-admin/organization-form.tsx:217 | "Saving..." while submitting, else "Update Organization" exactly when editing, else "Create Organization" |
| OrganizationForm.OrganizationFormState.HandleSubmit | src/components/super-admin/organization-form.tsx:33-66 | the error is cleared; name and slug are sent as given; an empty domain or description becomes absent; settings, read as written (`SettingsAsWritten`), are attached iff the block is enabled; a failed `onSubmit` shows its message or "Failed to save organization" |
| AdminOrganizationsPage.PageSettings | src/app/admin/organizations/page.tsx:155-166 | settings exist iff `maxUsers` is non-empty, with `maxUsers` parsed and each flag true iff its value is "true" |
| AdminOrganizationsPage.PageFormNeverSendsSettings | src/app/admin/organizations/page.tsx:155-166 | a form without a `maxUsers` field, as the page's own form is, never yields settings |
| AdminOrganizationsPage.HandleCreateOrganization | src/app/admin/organizations/page.tsx:143-168 | the mutation fires iff the six required fields are filled, and then with exactly the built payload plus the settings; otherwise the page reports the missing fields |
| AdminOrganizationsPage.RowOf | src/app/admin/organizations/page.tsx:172-203 | the domain falls back to "N/A"; the status reads "Active", with the default badge, exactly when the organization is active |
| Search.SearchList | src/app/admin/users/page.tsx:176-189 | no data gives an empty list; an empty query gives the data unchanged; otherwise an item is kept iff it matches the lower-cased query; the result is always an order-preserving subsequence of the data |
| Search.SearchIgnoresCase | src/app/admin/users/page.tsx:180 | queries that agree once lower-cased select the same items |
| AdminUsersPage.FilterUsers | src/app/admin/users/page.tsx:176-189 | no data gives []; an empty query gives all users; otherwise a user is kept iff the lower-cased query is in the lower-cased email, first name, last name, role, or matric number when present; the result is an order-preserving subsequence |
| AdminUsersPage.CreateUserRequest | src/app/admin/users/page.tsx:128-143 | the request is built iff email, password, first name, last name and role are all non-empty, and then carries exactly those values with an empty matric number left out; otherwise "Please fill in all required fields" |
| AdminUsersPage.RoleMenu | src/app/admin/users/page.tsx:399-424 | the row menu offers exactly the three changes to STUDENT, INSTRUCTOR and ADMIN for that user, never SUPER_ADMIN |
| AdminUsersPage.HandleDeleteUser | src/app/admin/users/page.tsx:165-169 | the deletion of that user is dispatched iff the confirmation is accepted |
| AdminUsersPage.RoleColor | src/app/admin/users/page.tsx:191-196 | the badge variant of each of the four roles, and none for any other role |
| AdminUsersPage.MatricCell | src/app/admin/users/page.tsx:427 | the matric number, or "N/A" when it is missing or empty |
| AdminUsersPage.EmptyMessage | src/app/admin/users/page.tsx:359-362 | "No users found matching your search" when a query is typed; the plain "No users found" exactly when none is |
| AdminUsersPage.UsersPage.constructor | src/app/admin/users/page.tsx:59-61 | no user is selected and both sheets are closed |
| AdminUsersPage.UsersPage.EditUser | src/app/admin/users/page.tsx:171-174 | the user is selected and the edit sheet opens |
| AdminUsersPage.UsersPage.UpdateSucceeded | src/app/admin/users/page.tsx:91-96 | a successful update closes the edit sheet and clears the selection |
| AdminUsersPage.UsersPage.CancelEdit | src/app/admin/users/page.tsx:520-524 | Cancel closes the edit sheet and clears the selection |
| AdminUsersPage.UsersPage.DismissEditSheet | src/app/admin/users/page.tsx:462 | closing the edit sheet by Escape or the overlay keeps the selection and the create sheet, and keeps the invariant that an open edit sheet has a selected user |
| AdminUsersPage.UsersPage.SetCreateSheetOpen | src/app/admin/users/page.tsx:220-318 | the create sheet follows its open state; the selection and the edit sheet are untouched |
| AdminUsersPage.UsersPage.CreateSucceeded | src/app/admin/users/page.tsx:78-82 | a successful creation closes the create sheet; the selection and the edit sheet are untouched |
| AdminUsersPage.UsersPage.HandleUpdateUser | src/app/admin/users/page.tsx:146-159 | nothing is sent without a selected user; otherwise the update for that user's id carries the names and e-mail as submitted, with an empty matric number left out |
| SuperAdminUsersPage.FilterUsers | src/app/super-admin/users/page.tsx:39-53 | no data gives []; an empty query gives all users; otherwise a user is kept iff the lower-cased query is in the email, a name, the role, or the organization's name or slug when present; the result is an order-preserving subsequence |
| SuperAdminUsersPage.NoOrganizationNoOrgMatch | src/app/super-admin/users/page.tsx:50-51 | for a user without an organization, the search matches exactly on the user's own fields, as the admin list does without a matric number |
| SuperAdminUsersPage.BadgeVariant | src/app/super-admin/users/page.tsx:55-60 | a known role has the variant of the shared role table; any other role is "outline" |
| SuperAdminUsersPage.OrganizationCell | src/app/super-admin/users/page.tsx:147 | the organization's name, else the organization id, else "N/A" |
| SuperAdminUsersPage.CoursesCell | src/app/super-admin/users/page.tsx:150 | the user's course count, or 0 when it is missing |
| SuperAdminUsersPage.LastActiveCell | src/app/super-admin/users/page.tsx:151-154 | "Never" exactly when no last activity is recorded; otherwise that time |
| SuperAdminUsersPage.EmptyMessage | src/app/super-admin/users/page.tsx:116-118 | "No users found matching your search" when a query is typed; the plain "No users found" exactly when none is |
| SuperAdminOrganizationsPage.FilterOrganizations | src/app/super-admin/organizations/page.tsx:12-22 | missing data reads as []; an organization is kept iff the lower-cased query is in its lower-cased name or slug; the result is an order-preserving subsequence |
| SuperAdminOrganizationsPage.EmptyQueryKeepsAll | src/app/super-admin/organizations/page.tsx:19-22 | an empty query keeps every organization, in order |
| SuperAdminOrganizationsPage.Grid | src/app/super-admin/organizations/page.tsx:75-93 | the grid area is shown iff neither loading nor failed; an empty result says "none yet" exactly when there are no organizations and "no match" otherwise; the cards are exactly the filtered list |
| AdminCoursesPage.FilterCourses | src/app/admin/courses/page.tsx:39-52 | no data gives []; an empty query gives all courses; otherwise a course is kept iff the lower-cased query is in its title, or in its code, summary or instructor's first or last name where present; the result is an order-preserving subsequence |
| AdminCoursesPage.InstructorName | src/app/admin/courses/page.tsx:54-61 | with an instructor, the trimmed "first last" with missing parts as "", or "N/A" when that is blank; without one, the instructor id or "N/A"; never empty |
| AdminCoursesPage.BothNamesShown | src/app/admin/courses/page.tsx:56-58 | two unpadded names are shown as "first last" with one space |
| AdminCoursesPage.FirstNameOnly | src/app/super-admin/courses/page.tsx:58-60 | a lone first name is shown without a stray trailing space |
| AdminCoursesPage.LastNameOnly | src/app/super-admin/courses/page.tsx:58-60 | a lone last name is shown without a stray leading space |
| AdminCoursesPage.NamelessInstructor | src/app/admin/courses/page.tsx:55-58 | an instructor with neither name is shown as "N/A", even when an instructor id is known |
| AdminCoursesPage.CodeCell | src/app/admin/courses/page.tsx:135 | the course code, or "N/A" when missing or empty |
| AdminCoursesPage.EnrollmentCount | src/app/admin/courses/page.tsx:141 | the number of enrollments, or 0 when the list is missing |
| AdminCoursesPage.EmptyMessage | src/app/admin/courses/page.tsx:115-117 | "No courses found matching your search" when a query is typed; the plain "No courses found" exactly when none is |
| SuperAdminCoursesPage.RowOf | src/app/super-admin/courses/page.tsx:56-113 | the code or "N/A"; the instructor by the same rule as the admin list, never empty; the organization's name, else its id, else "N/A"; the enrollment count or 0; the creation date when known |
| AdminEnrollmentsPage.HandleCreateEnrollment | src/app/admin/enrollments/page.tsx:111-124 | the enrollment is sent iff both the user id and the course id are non-empty, and then with exactly those ids; otherwise "Please select both a user and a course" |
| AdminEnrollmentsPage.StatusVariant | src/app/admin/enrollments/page.tsx:140-152 | ACTIVE is "default", COMPLETED "secondary", DROPPED "destructive", and exactly the other statuses are "outline" |
| AdminEnrollmentsPage.UserName | src/app/admin/enrollments/page.tsx:157-160 | "first last" of the first user with that id; the id itself when there is none or no data |
| AdminEnrollmentsPage.CourseName | src/app/admin/enrollments/page.tsx:162-165 | the title of the first course with that id; the id itself when there is none or no data |
| AdminEnrollmentsPage.Students | src/app/admin/enrollments/page.tsx:168 | exactly the users whose role is STUDENT, in their order; no data gives [] |
| AdminEnrollmentsPage.MenuActions | src/app/admin/enrollments/page.tsx:325-357 | a status change is offered for every status of ACTIVE, COMPLETED and DROPPED except the current one, in that order, and Delete always comes last |
| AdminEnrollmentsPage.HandleDeleteEnrollment | src/app/admin/enrollments/page.tsx:130-138 | the deletion of that enrollment is dispatched iff the confirmation is accepted |
| AdminEnrollmentsPage.PageLoading | src/app/admin/enrollments/page.tsx:154 | the page is loading exactly while any of its three queries is |
| AdminAnalyticsPage.DistinctRolesSpec | src/app/admin/analytics/page.tsx:117-120 | a role is a key of the distribution exactly when some user has it, and no key appears twice |
| AdminAnalyticsPage.CountAbsentRole | src/app/admin/analytics/page.tsx:118-120 | a role no user has is counted zero times |
| AdminAnalyticsPage.SumCountsStep | src/app/admin/analytics/page.tsx:118-120 | one more user adds one to the summed counts when its role is listed, and nothing otherwise |
| AdminAnalyticsPage.RoleCountsSumToUsers | src/app/admin/analytics/page.tsx:115-122 | the counts of the listed roles add up to the number of users |
| AdminAnalyticsPage.RoleDistribution | src/app/admin/analytics/page.tsx:115-122 | no data gives an empty distribution; the keys are the distinct roles in first-seen order; each role's count is the number of users with that role |
| AdminAnalyticsPage.CountAbsentRoleOfDistinct | src/app/admin/analytics/page.tsx:119 | a role not yet a key has not been counted, so `distribution[role] \|\| 0` starts it at 0 |
| AdminAnalyticsPage.QuizAverage | src/app/admin/analytics/page.tsx:142-154 | a value exists iff some user has a truthy quiz score, and it is the scores' total divided by the number of scored users |
| AdminAnalyticsPage.AverageMetrics | src/app/admin/analytics/page.tsx:125-156 | without data all three metrics are "0"; the course average is the total courses, a missing count as 0, over all users; the completion rate exists iff the course total is positive and is completed over courses times 100; the quiz average is `QuizAverage` |
| AdminAnalyticsPage.QuizTotalIgnoresUnscored | src/app/admin/analytics/page.tsx:142-144 | summing only the scored users gives the same total as summing everyone with a missing score as 0 |
| AdminAnalyticsPage.QuizAverageInRange | src/app/admin/analytics/page.tsx:152-154 | when every score lies in [0, 100], so does the quiz average |
| AdminAnalyticsPage.ScoresInRange | src/app/admin/analytics/page.tsx:143 | every scored user's score lies in [0, 100] when all scores do |
| AdminAnalyticsPage.CourseListOf | src/app/admin/analytics/page.tsx:264-293 | no data or an empty list shows no courses; otherwise the first min(n, 5) courses in order, and "+N more" iff n > 5, with N = n - 5 |
| AdminAnalyticsPage.CourseTitle | src/app/admin/analytics/page.tsx:274 | `courseTitle` when truthy, else `title` |
| AdminAnalyticsPage.CourseEnrollments | src/app/admin/analytics/page.tsx:277 | a non-zero `totalEnrollments`, else the length of `enrollments`, else 0 |
| AdminAnalyticsPage.PageLoading | src/app/admin/analytics/page.tsx:158 | the page is loading exactly while any of its three queries is |
| AdminSectionCards.TotalUsers | src/components/admin/admin-section-cards.tsx:74 | the number of user entries, 0 without data |
| AdminSectionCards.ActiveUsers | src/components/admin/admin-section-cards.tsx:75-77 | the number of users whose last activity is strictly later than now minus 30 days; never more than the total; 0 without data |
| AdminSectionCards.ActiveUsersShrinkOverTime | src/components/admin/admin-section-cards.tsx:75-77 | a later clock never counts more active users |
| AdminSectionCards.NoActivityNeverActive | src/components/admin/admin-section-cards.tsx:76 | a user without `lastActiveAt` is never counted |
| AdminSectionCards.TotalCourses | src/components/admin/admin-section-cards.tsx:79 | the number of course entries, 0 without data |
| AdminSectionCards.TotalEnrollments | src/components/admin/admin-section-cards.tsx:79-81 | the sum of every course's `totalEnrollments`, a missing figure read as 0; 0 without data; never negative when no figure is |
| AdminSectionCards.ActiveEnrollments | src/components/admin/admin-section-cards.tsx:82-84 | the sum of every course's `activeEnrollments`, a missing figure read as 0; 0 without data; never negative when no figure is |
| AdminSectionCards.TotalsAddPerCourse | src/components/admin/admin-section-cards.tsx:79-84 | one more course adds its own figures, a missing one as 0, to both totals |
| AdminSectionCards.CompletionRate | src/components/admin/admin-section-cards.tsx:87-90 | a rate exists iff the enrollment total, a missing figure as 0, is positive, and then rate times total equals the completed total times 100 |
| AdminSectionCards.CompletionRateInRange | src/components/admin/admin-section-cards.tsx:87-90 | when no course has a negative figure or more completions than enrollments, the rate lies in [0, 100] |
| AdminSectionCards.Clamp | src/components/admin/admin-section-cards.tsx:171 | the result lies in [0, 100], equals an input already in range, and is the nearer bound otherwise |
| AdminSectionCards.Uptime | src/components/admin/admin-section-cards.tsx:170-174 | the performance uptime when truthy, else the overall uptime when truthy, clamped to [0, 100]; "N/A" exactly when neither is truthy |
| AdminSectionCards.ResponseTime | src/components/admin/admin-section-cards.tsx:186-188 | the response-time line appears exactly when a non-zero response time is reported, and shows that time |
| AdminDataTable.RelativeTimeOf | src/components/admin/admin-data-table.tsx:120-140 | the floored day, hour and minute counts pick the bucket; a minute count shown is between 2 and 59, an hour count between 1 and 23, and a day count below 7 and never 0 or 1 |
| AdminDataTable.MinuteBuckets | src/components/admin/admin-data-table.tsx:126-131 | "Just now" exactly for 0 to under 2 minutes; whole minutes exactly from 2 minutes to under an hour, with the count the floored minutes |
| AdminDataTable.HourBuckets | src/components/admin/admin-data-table.tsx:126-132 | whole hours exactly from one hour to under a day, with the count the floored hours |
| AdminDataTable.DayBuckets | src/components/admin/admin-data-table.tsx:124-139 | "Yesterday" exactly for one to under two days; "N days ago" exactly for a future time or two to under seven days, with N the floored days; the calendar date exactly from seven days on |
| AdminDataTable.Label | src/components/admin/admin-data-table.tsx:130-138 | every bucket has a fixed label except the calendar date, which depends on the locale |
| AdminDataTable.LabelCountReadsBack | src/components/admin/admin-data-table.tsx:130-136 | the number at the head of a counted label is the count itself: `parseInt` reads it back |
| AdminDataTable.HourPlural | src/components/admin/admin-data-table.tsx:132 | between one and two hours ago reads "1 hour ago"; from two hours on the label is the count followed by " hours ago" |
| AdminDataTable.FutureActivityShowsNegativeDays | src/components/admin/admin-data-table.tsx:133-136 | an activity time up to a day in the future reads "-1 days ago" |
| AdminDataTable.IsLoading | src/components/admin/admin-data-table.tsx:111 | the loading state follows the query of the current view only |
| AdminDataTable.RecentUsers | src/components/admin/admin-data-table.tsx:158 | the first min(n, 5) users in order; none when the data is not a list |
| AdminDataTable.RecentCourses | src/components/admin/admin-data-table.tsx:242 | the first min(n, 10) courses in order; none when the data is not a list |
| AdminDataTable.UserLineOf | src/components/admin/admin-data-table.tsx:203-228 | the full name, the role badge with "outline" for unknown roles, the course count or 0, and "Never" exactly when no activity is recorded, otherwise the relative time of now minus that activity |
| AdminDataTable.CourseRowOf | src/components/admin/admin-data-table.tsx:274-285 | the title, the code or "N/A", the instructor by the admin list's rule, the enrollment count or 0, and the creation date when known |
| EnhancedTable.Enhance | src/components/ui/enhanced-table.tsx:125-166 | a caller's column keeps its id and hiding setting, and is sortable unless it sets `enableSorting` to false |
| EnhancedTable.BuildColumns | src/components/ui/enhanced-table.tsx:124-197 | the checkbox column first, then each caller column enhanced in order, then an actions column appended iff no caller column has id "actions"; the number of actions columns is the caller's when it has one, else exactly 1 |
| EnhancedTable.ActionsCount | src/components/ui/enhanced-table.tsx:125-166 | the checkbox column and the enhanced columns together hold as many actions columns as the caller's list |
| EnhancedTable.AppendActions | src/components/ui/enhanced-table.tsx:170-194 | pushing the actions column adds one to the count of actions columns |
| EnhancedTable.EnhancePreservesActions | src/components/ui/enhanced-table.tsx:125-166 | enhancing keeps the ids, so it keeps the count of actions columns |
| EnhancedTable.CountAbsent | src/components/ui/enhanced-table.tsx:169 | when no column has id "actions", the count of actions columns is 0 |
| EnhancedTable.CountPresent | src/components/ui/enhanced-table.tsx:169 | when some column has id "actions", the count is positive |
| EnhancedTable.ExactlyOneActionsColumn | src/components/ui/enhanced-table.tsx:168-194 | a caller that supplies at most one actions column ends up with exactly one |
| EnhancedTable.EmptyRowSpan | src/components/ui/enhanced-table.tsx:381-386 | the "No results." cell spans the caller's columns plus the checkbox column, plus the actions column exactly when the caller has none; always more than the caller's columns |
| EnhancedTable.PageRequest | src/components/ui/enhanced-table.tsx:240-246 | a page is requested iff the box parses to n with 1 <= n <= totalPages, and then the request is page index n - 1 |
| EnhancedTable.TypedPageRequested | src/components/ui/enhanced-table.tsx:241-243 | typing the decimal form of an existing page number requests that page |
| EnhancedTable.NonNumericIgnored | src/components/ui/enhanced-table.tsx:241-242 | input that `parseInt` reads as NaN requests nothing |
| EnhancedTable.TableState.constructor | src/components/ui/enhanced-table.tsx:86-93 | the box starts empty and the page size is the caller's default, else 8 |
| EnhancedTable.TableState.SetGoToPage | src/components/ui/enhanced-table.tsx:93 | typing sets the box and nothing else |
| EnhancedTable.TableState.HandleGoToPage | src/components/ui/enhanced-table.tsx:240-246 | the request is `PageRequest` of the box; an accepted page clears the box; anything else leaves the state as it was |
| EnhancedTable.PagerOf | src/components/ui/enhanced-table.tsx:403-445 | buttons numbered 1..min(totalPages, 10), each requesting its own index and highlighted iff it is the current page; an ellipsis and a last-page button to index totalPages - 1 iff totalPages > 10; a next button iff totalPages > 1 |
| EnhancedTable.PagerButtonsDistinct | src/components/ui/enhanced-table.tsx:403-434 | at most one numbered button is highlighted, and the last-page button never repeats a numbered one |
| EnhancedTable.ShownPager | src/components/ui/enhanced-table.tsx:216-219 | the rendered pager has min(totalPages, 10) buttons, and only the first is highlighted, whatever was requested |
| EnhancedTable.GoToPageStaysOnFirst | src/components/ui/enhanced-table.tsx:216-246 | going to page n, 2 <= n <= 10, is accepted and requested as index n - 1, yet page 1 stays highlighted and page n does not |
| EnhancedTable.IntendedPager | src/components/ui/enhanced-table.tsx:403-434 | with the request applied, a button is highlighted iff it is the requested page, else the current one |
| EnhancedTable.GoToPageShowsRequested | src/components/ui/enhanced-table.tsx:240-246 | with the request applied, going to page n highlights exactly page n |
| SystemHealth.StatusIcon | src/components/super-admin/system-health.tsx:35-46 | healthy is a green check, degraded a yellow alert, down a red cross, and any other status a gray alert |
| SystemHealth.StatusColour | src/components/super-admin/system-health.tsx:48-59 | the status text has its icon's colour for every status, and is gray exactly for the unknown statuses |
| SystemHealth.GlyphIdentifiesStatus | src/components/super-admin/system-health.tsx:35-46 | only a healthy status shows the check, and only a down status shows the cross |
| SystemHealth.Chips | src/components/super-admin/system-health.tsx:91-99 | exactly one chip per service entry, in order, with the service's name and its status icon |
| SystemHealth.Render | src/components/super-admin/system-health.tsx:12-99 | loading exactly while loading, even without data; "Unable to load system health" exactly when loading is over and no data came; otherwise the panel with the status, its icon and matching colour, the performance figures and exactly `Chips` of the services, one chip per service in order |
| Icons.ResolveIconName | src/lib/icons.tsx:208-210 | the table's name for a listed alias, the alias itself otherwise |
| Icons.TableValuesAreFixed | src/lib/icons.tsx:127-203 | every name the table produces is either not an alias or an alias of itself |
| Icons.ResolveIdempotent | src/lib/icons.tsx:127-210 | resolving a resolved name changes nothing |
| Icons.AliasesCollapse | src/lib/icons.tsx:143-149 | "settings-horizontal" and "settings" resolve to "settings", "pencil" and "edit" to "edit", "trash-can" and "trash" to "trash" |
| Icons.VariantName | src/lib/icons.tsx:16 | a variant is written "fill" or "stroke" |
| Icons.IconPath | src/lib/icons.tsx:27-34 | every icon path lies under /icons/clickons/ and ends in ".svg" |
| Icons.IconPathInjective | src/lib/icons.tsx:34 | the path determines both the icon name and the variant |
| Icons.StrokeIsDefault | src/lib/icons.tsx:27 | an icon without a variant has the stroke variant's path |
| Text.Or | src/app/admin/courses/page.tsx:56-57 | the value when it is a non-empty string, the fallback otherwise |
| Text.JsString | src/lib/api.ts:90-93 | a present text is itself; a missing value becomes "undefined", as `String` and template literals render it |
| Text.Utf16Length | src/components/onboarding/onboarding-form.tsx:66 | `length` counts between one and two code units per character |
| Text.Utf16LengthOfBmp | src/components/onboarding/onboarding-form.tsx:66 | within the Basic Multilingual Plane the code-unit count is the character count |
| Text.ContainsIff | src/app/super-admin/organizations/page.tsx:20-21 | a substring test holds exactly when the needle occurs at some position |
| Text.Lower | src/app/admin/users/page.tsx:180-187 | lower-casing keeps the length and lowers each character on its own |
| Text.TrimSpec | src/app/super-admin/courses/page.tsx:60 | the trimmed text is a contiguous piece of the original with no space at either end |
| Text.TrimBlank | src/app/super-admin/courses/page.tsx:60 | trimming gives the empty string exactly when the text is all spaces |
| Text.ParseIntRoundTrip | src/components/ui/enhanced-table.tsx:241 | parsing the decimal rendering of any integer gives that integer back |
| Text.ParseIntOfLabel | src/components/ui/enhanced-table.tsx:241 | parsing stops at the first non-digit, so an integer followed by other text parses to that integer |
| Lists.FilterIsSubsequence | src/app/admin/users/page.tsx:179-189 | a filtered list keeps its entries in their original order |
| Lists.FilterMembers | src/app/admin/users/page.tsx:179-189 | an entry is in the filtered list exactly when it is in the list and passes the test |
| Lists.CountIsFilterLength | src/components/admin/admin-section-cards.tsx:75-77 | counting the entries that pass a test gives the length of the filtered list |

## Left out

- Text.Lower: lowers only ASCII A-Z, standing in for JavaScript's Unicode `toLowerCase`, because Dafny strings carry no case tables.
- Text.ParseInt: decimal only. A "0x" prefix is not read as hexadecimal, and no source call passes one.
- Api.Client.RefreshAccessToken: the sharing of one in-flight refresh between concurrent requests (src/lib/api.ts:102-106) is not modelled. The model has no concurrency, so `Valid()` requires that no refresh is pending between calls.
- Api.Client: the server-side paths taken when `typeof window` is undefined are left out. The model is the browser client.
- The HTTP transport (axios), `localStorage`, the router, toasts and `confirm` are not modelled as such. Their answers are method parameters, and what is stored or shown is a class field or a result.
- Api.Client.Send: a request is abstracted as three answers given as parameters: what the server does with the first request, what the refresh endpoint answers, and what the server does with the resent request. A resent request that is itself rejected with 401 is already flagged, so its error passes through unchanged.
- Auth.AuthProvider.CheckAuth: the catch path is left out, since nothing inside the modelled body can throw.
- Dates are integer milliseconds. Parsing date strings, `toLocaleDateString`, `toFixed` and `Math.round` formatting are not modelled, and a formatted date is an opaque `ShortDate`.
- EnhancedTable: TanStack's sorting, column filtering, row selection and pagination engine is not part of this model. `HandleGoToPage` returns the page index it asks the table for; the table state pins the index at 0 (src/components/ui/enhanced-table.tsx:216-219), so that request is discarded and the pager is `ShownPager`.
- Icons: the `ClickonsIcon` component's fetch of the SVG file, its `DOMParser` rewrite and its loading state (src/lib/icons.tsx:36-60) are I/O and are left out. Only the path it fetches is modelled.
- Icons.ResolveIconName: JavaScript object-prototype keys such as "constructor" are treated as absent from the table. In the source, such a lookup returns an inherited member.
- AdminUsersPage.RoleColor, SuperAdminUsersPage.BadgeVariant, AdminEnrollmentsPage.StatusVariant: these read plain object maps too, and a prototype key such as "constructor" is likewise treated as absent, where the source would get an inherited member.
- AdminOrganizationsPage: the page's create form has no `maxUsers` input, so `PageSettings` is never `Some` for it (`PageFormNeverSendsSettings`). The analytics select of that form (src/app/admin/organizations/page.tsx:391-404) is modelled only through `PageSettings`, which reads it only when a `maxUsers` value exists.
- The mock `queryFn`s that stand in for unfinished endpoints return fixed data, and they are not modelled.
- Auth.AuthProvider: `refreshUser` is a placeholder with no effect in the source, and it is left out.
- SuperAdminUsersPage.UserMatches: the optional chaining on first and last names is dropped, because `User` always carries both names.
- The growth and percentage labels of the cards and charts are number formatting, and they are not modelled.

## Findings

| source | as written | input that shows it | evidently intended | confidence | as-written member | corrected member |
|---|---|---|---|---|---|---|
| src/lib/api.ts:51-76 | the response interceptor treats every 401 as an expired session, including the 401 with which the login endpoint rejects a wrong password | a login with a wrong password and no stored refresh token: the form shows "No refresh token", the tokens are cleared and the browser goes to /login | the login form shows the server's reason for the rejection | not executed | Api.RejectedLoginShowsNoRefreshToken | Api.RejectedLoginShowsServerMessage |
| src/components/ui/enhanced-table.tsx:216-219 | the table state fixes `pageIndex` at 0, so the page that "go to page" asks for is discarded | typing 3 with 5 pages: the request for index 2 is accepted, the box clears, and page 1 stays highlighted | the requested page becomes the current one | not executed | EnhancedTable.GoToPageStaysOnFirst | EnhancedTable.GoToPageShowsRequested |
| src/components/super-admin/organization-form.tsx:48-50 | each feature flag is `formData.get(flag) === "true"`, but the checkboxes at lines 166-199 have no `value` attribute, so a ticked box submits "on" and every flag comes out false | a form with the messaging box ticked: the request carries messaging = false | a flag is true exactly when its box is ticked | not executed | OrganizationForm.CheckboxFlagsAlwaysFalse | OrganizationForm.CheckboxFlagsFollowTicks |
