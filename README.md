# Learning Hub front end: a Dafny model of its session, routing and page logic

Learning Hub is a React front end for an educational platform whose data is
mocked in memory and in the browser's local storage. This project models the
parts of it that have behaviour that can be stated precisely:

- **Session store** (`AuthContext`, `auth_context.dfy`): the `user` and
  `loading` state cells, the persisted copy of the user under the storage key
  `'user'`, and `useAuth`, the mount-time hydration, `login`, `register`,
  `logout` and `resetPassword`. Storage is a `map<string, User>`; JSON
  encoding and decoding are taken as the identity.
- **Router** (`App`, `app.dfy`): the route table, the `/` and `*` fallbacks,
  the way react-router matches a location against the table (ignoring the
  case of ASCII letters and any trailing slashes), and the `ProtectedRoute`
  guard's three-way decision (loading placeholder, redirect to `/login`, or
  the page inside the layout shell).
- **List filters** (`Faq`, `HelpCenter`, `Mentors`, `Courses`): each page's
  `filter` expression, built on a model of `Array.prototype.filter`/`some`
  (`Lists`) and of the case-insensitive `includes` search (`Text`).
- **Toggles and record updates**: FAQ `toggleQuestion`, the Settings page's
  section, notification and preference updaters, and the learning-path card
  selection.
- **Form handlers** (`Register`, `Login`, `ForgotPassword`, `Contact`,
  `Feedback`): each page's state cells as a class, and each `handleSubmit` as
  a method. An asynchronous handler is also split at its `await` into a
  `BeginSubmit` method (the state while waiting) and a `FinishSubmit` method
  (the state after it), which the `HandleSubmit` method runs in sequence.
- **Layout chrome** (`Navbar`, `DashboardLayout`): the sign-in-page check,
  the scroll threshold, the avatar initial and name fallback, logout, the
  mobile breakpoint and the sidebar rule.

In each component modelled here, the `useState` cells become the fields of a
class, and each event handler that sets them becomes a method whose
`ensures` clause gives the new state; the list pages (Courses, Help Center,
Mentors, FAQ) also have a `Shown` function for the cards on screen.
Where the handler's updater is a pure spread-copy or filter, that updater is
a function, and the lemmas about it carry the properties. The `await` of a
timer is one atomic step. What an awaited call returns is a parameter: a
`Reply` for the pages, and a `fails` flag for the session store's `try`
blocks. Two scenario methods, `Login.SubmitToProvider` and
`Register.SubmitToProvider`, connect a page to a real `AuthProvider`.

Notes on what the code does:
- `login` and `register` do not check their inputs. The password is ignored
  and the e-mail is copied through. The forms are what constrain them: every
  input is `required`, the e-mail inputs are `type="email"`, and no form
  turns off the browser's checking, so a handler never runs with an empty
  required field or a malformed e-mail.
- The guard's `<Navigate to="/login">` has no `replace` flag, so the model's
  `Redirect` carries `replace == false`.
- The forgot-password page does not call `resetPassword`; it only waits and
  then shows success.
- `App.jsx` wraps guarded pages in `src/components/DashboardLayout.jsx`. The
  layout modelled here is the one in `src/components/layout/DashboardLayout.jsx`.
  That is the shell the navbar's menu button toggles.

## Model

| member | source | states |
|---|---|---|
| AuthContext.UseAuth | src/context/AuthContext.jsx:5-11 | outside a provider the result is the error 'useAuth must be used within an AuthProvider'; inside one it is the provider's context value |
| AuthContext.SavedUser | src/context/AuthContext.jsx:14-17 | the initial user is present iff the 'user' key is in storage, and is then the stored record |
| AuthContext.LoginUser | src/context/AuthContext.jsx:44-49 | the user `login` creates has id '1', the given e-mail, name 'Test User' and the fixed avatar URL |
| AuthContext.RegisteredUser | src/context/AuthContext.jsx:68-73 | the user `register` creates has id '1', and its e-mail and name are the inputs; the avatar is derived from the name |
| FormErrors.ErrorOr | src/pages/Login.jsx:26 | `result.error \|\| fallback`: a present, non-empty error is shown as is; a missing or empty one gives the fallback |
| AuthContext.PersistThenHydrate | src/context/AuthContext.jsx:14-17 | writing a user under 'user' and hydrating from that storage yields the same user |
| AuthContext.RemoveThenHydrate | src/context/AuthContext.jsx:86-89 | after the key is removed, hydration finds no user |
| AuthContext.AuthProvider.constructor | src/context/AuthContext.jsx:13-18 | mounting starts with the stored user, or none, and with `loading` true |
| AuthContext.AuthProvider.CheckAuth | src/context/AuthContext.jsx:20-36 | hydration takes the stored user when the read succeeds and the key exists, otherwise keeps `user`; `loading` ends false on both paths; storage is untouched |
| AuthContext.AuthProvider.BeginRequest | src/context/AuthContext.jsx:39 | while an operation waits, `loading` is true and nothing else has changed |
| AuthContext.AuthProvider.FinishLogin | src/context/AuthContext.jsx:40-59 | on success the login user is both the current user and the record under 'user', and the result is `{success: true}`; on a throw the result is 'Invalid credentials' and user and storage are unchanged; `loading` ends false either way |
| AuthContext.AuthProvider.Login | src/context/AuthContext.jsx:38-60 | the whole of `login`: same outcomes as FinishLogin, whatever the password |
| AuthContext.AuthProvider.FinishRegister | src/context/AuthContext.jsx:64-83 | on success the registered user, with the given e-mail and name, is current and persisted; on a throw the result is 'Registration failed' and nothing changes; `loading` ends false |
| AuthContext.AuthProvider.Register | src/context/AuthContext.jsx:62-84 | the whole of `register`: same outcomes as FinishRegister |
| AuthContext.AuthProvider.Logout | src/context/AuthContext.jsx:86-89 | `user` becomes none and exactly the 'user' key is removed; there is no failure path |
| AuthContext.AuthProvider.ResetPassword | src/context/AuthContext.jsx:91-103 | returns `{success: true}` unless the wait rejects; changes only `loading`, which ends false |
| AuthContext.LoginThenLogout | src/context/AuthContext.jsx:38-89 | a successful login followed by logout leaves no user, no 'user' key and `loading` false |
| AuthContext.LoginThenRemount | src/context/AuthContext.jsx:14-53 | the user a login persists is the user the next provider mounted over that storage starts with on its first render, and still has after its mount effect, with `loading` then false |
| App.TrimTrailingSlashes | src/App.jsx:56-88 | the result is a prefix of the path, does not end in `/`, and only slashes were cut |
| App.MatchKey | src/App.jsx:56-88 | the form in which a location is compared with the table: never empty, no upper-case ASCII letter, and no trailing slash unless it is `/` |
| App.Route | src/App.jsx:56-88 | a location gets a bare page iff its matching form is a sign-in path; a location whose matching form is in the table gets that entry; any other falls to `*`, a redirect to `/dashboard` |
| App.MatchKeyOfMatchingForm | src/App.jsx:56-88 | a path already in matching form is its own matching form |
| App.TableInMatchingForm | src/App.jsx:57-86 | every path in the table is written in matching form |
| App.ExactSpellingMatches | src/App.jsx:56-88 | a location spelled as in the table gets its own entry |
| App.RouteIgnoresCase | src/App.jsx:56-88 | a location and its lower-cased form get the same route, so `/Settings` shows Settings |
| App.MatchKeyIgnoresTrailingSlash | src/App.jsx:56-88 | appending `/` to a location leaves its matching form unchanged |
| App.RouteIgnoresTrailingSlash | src/App.jsx:56-88 | a location with a trailing `/` gets the same route as without it |
| App.ProtectedRoute | src/App.jsx:27-50 | the placeholder iff loading; a redirect to `/login` without `replace` iff loaded with no user; otherwise the child inside the layout |
| App.Decide | src/App.jsx:27-88 | a page is shown in the layout only to a loaded, signed-in session; a page is shown outside the layout iff the location matches a sign-in path; every location matching a guarded path shows the placeholder while loading |
| App.EveryOtherPathGuarded | src/App.jsx:61-84 | every location matching a listed path other than the sign-in paths and `/` is wrapped in the guard |
| App.GuardedPathsNeedLogin | src/App.jsx:45-47 | with loading over and no user, every location matching a guarded path redirects to `/login` |
| App.FallbackReachesLogin | src/App.jsx:86-87 | locations matching `/` or no entry redirect to `/dashboard`, which redirects a session with no user to `/login` |
| App.GuardIgnoresIdentity | src/App.jsx:45-49 | which user is signed in never changes the decision: there are no per-route roles |
| Lists.Filter | src/pages/HelpCenter.jsx:71 | `filter` returns only elements of the array that pass, and every element that passes |
| Lists.FilterIsSubsequence | src/pages/HelpCenter.jsx:71 | `filter` keeps the surviving elements in their original order |
| Lists.SubsequenceOfItself | src/pages/Courses.jsx:64 | the unfiltered list is trivially in order |
| Lists.FilterAllPass | src/pages/FAQ.jsx:117 | a filter that every element passes returns the array unchanged |
| Lists.FilterConcat | src/pages/FAQ.jsx:100-101 | filtering distributes over appending |
| Lists.FilterCount | src/pages/Courses.jsx:65 | each passing value is kept exactly as often as it occurs, and failing values are dropped |
| Lists.FilterKeepsNoDuplicates | src/pages/FAQ.jsx:100 | removing elements cannot create a duplicate |
| Text.ToLower | src/pages/FAQ.jsx:112 | `toLowerCase` keeps the length and lower-cases each character |
| Text.EmptyQueryMatches | src/pages/HelpCenter.jsx:73 | an empty search text matches every string |
| Text.ToLowerIdempotent | src/pages/HelpCenter.jsx:73 | lower-casing twice equals lower-casing once |
| Text.ToLowerOfLowerCase | src/App.jsx:57-86 | a string with no upper-case letter is its own lower-case form, as the table's paths are |
| Text.QueryCaseIrrelevant | src/pages/HelpCenter.jsx:73-74 | the search gives the same answer for a query and its lower-cased form |
| Text.DecimalString | src/pages/Feedback.jsx:102 | a number renders as one or more decimal digits, a single digit below ten |
| Courses.FilteredCourses | src/pages/Courses.jsx:63-65 | 'All' returns the list unchanged; another category keeps exactly the courses of that category, in order |
| Courses.CategoryCount | src/pages/Courses.jsx:65 | a category keeps each course of that category as often as it occurs, and no course of another category |
| Courses.InitiallyEverything | src/pages/Courses.jsx:6-8 | the page opens on 'All', the first tab, showing every course |
| Courses.CoursesPage.constructor | src/pages/Courses.jsx:6 | the page starts on the 'All' tab |
| Courses.CoursesPage.SelectCategory | src/pages/Courses.jsx:85 | a tab's click selects that tab |
| Courses.CoursesPage.Shown | src/pages/Courses.jsx:63-65 | the cards on screen: the whole catalogue on 'All', otherwise only courses of the selected tab, always catalogue entries in catalogue order |
| HelpCenter.FilteredArticles | src/pages/HelpCenter.jsx:71-76 | an article is kept iff its category matches, or 'all' is selected, and its title or description contains the search text ignoring case; the order is kept |
| HelpCenter.EmptySearchMatchesCategory | src/pages/HelpCenter.jsx:73 | with an empty search only the category test is left |
| HelpCenter.AllWithEmptySearch | src/pages/HelpCenter.jsx:71-76 | 'all' with an empty search returns every article in order |
| HelpCenter.HelpCenterPage.constructor | src/pages/HelpCenter.jsx:6-7 | empty search, 'all' selected |
| HelpCenter.HelpCenterPage.SetSearchQuery | src/pages/HelpCenter.jsx:93 | the search box sets the query |
| HelpCenter.HelpCenterPage.SelectCategory | src/pages/HelpCenter.jsx:105 | a category button sets the category |
| HelpCenter.HelpCenterPage.Shown | src/pages/HelpCenter.jsx:71-76 | the cards on screen are exactly the articles matching the current category and query, in order |
| Mentors.FilteredMentors | src/pages/Mentors.jsx:72-77 | a mentor is kept iff the category matches, or 'all' is selected, and the name or some expertise entry contains the search text ignoring case; kept mentors are in the selected category unless 'all'; the order is kept |
| Mentors.TitleAndDescriptionNotSearched | src/pages/Mentors.jsx:74-75 | changing a mentor's title or description never changes whether it is shown |
| Mentors.AllWithEmptySearch | src/pages/Mentors.jsx:72-77 | 'all' with an empty search returns every mentor in order |
| Mentors.MentorsPage.constructor | src/pages/Mentors.jsx:6-7 | 'all' selected, empty search |
| Mentors.MentorsPage.SetSearchQuery | src/pages/Mentors.jsx:91 | the search box sets the query |
| Mentors.MentorsPage.SelectCategory | src/pages/Mentors.jsx:102 | a category button sets the category |
| Mentors.MentorsPage.Shown | src/pages/Mentors.jsx:72-77 | the cards on screen are exactly the mentors matching the current category and query, in order |
| Faq.Without | src/pages/FAQ.jsx:100 | removing an id drops it and keeps the other ids, in order |
| Faq.Toggled | src/pages/FAQ.jsx:97-103 | the id ends up present iff it was absent; other ids keep their membership; a present id is removed with the rest in order; an absent id is appended at the end |
| Faq.ToggledKeepsNoDuplicates | src/pages/FAQ.jsx:97-102 | toggling keeps the expanded list free of duplicates |
| Faq.ToggleTwice | src/pages/FAQ.jsx:97-102 | toggling twice restores membership, and restores the list exactly when the id was collapsed |
| Faq.FilteredFaqs | src/pages/FAQ.jsx:105-118 | whole groups are kept iff the category matches, or is 'all', and, for a non-empty search, some question or answer contains it; kept groups are unchanged and in order |
| Faq.AllWithEmptySearch | src/pages/FAQ.jsx:105-118 | 'all' with an empty search returns the FAQ unchanged |
| Faq.EmptySearchShortcut | src/pages/FAQ.jsx:110-117 | searching for "" inside `some` would drop exactly the groups with no questions; the explicit empty-search branch keeps them |
| Faq.FaqPage.constructor | src/pages/FAQ.jsx:6-8 | empty search, 'all' selected, nothing expanded |
| Faq.FaqPage.SetSearchQuery | src/pages/FAQ.jsx:134 | the search box sets the query |
| Faq.FaqPage.SelectCategory | src/pages/FAQ.jsx:146 | a category button sets the category |
| Faq.FaqPage.ToggleQuestion | src/pages/FAQ.jsx:97-103 | the expanded list becomes the toggled list and stays duplicate-free; the clicked question's answer shows iff it was hidden, and every other question keeps its state |
| Faq.FaqPage.Shown | src/pages/FAQ.jsx:155 | the groups on screen are exactly the groups kept for the current category and query, in the FAQ's order |
| Settings.ToggledSection | src/pages/Settings.jsx:40-45 | the section becomes the negation of its old value, a missing section becoming open; every other key is unchanged |
| Settings.ToggleSectionTwice | src/pages/Settings.jsx:40-45 | toggling a listed section twice is the identity |
| Settings.AllSectionsStartOpen | src/pages/Settings.jsx:10-19 | the eight sections, and only they, start open |
| Settings.ToggledNotification | src/pages/Settings.jsx:122-164 | a notification switch flips its own flag and leaves the other three unchanged |
| Settings.ToggleNotificationTwice | src/pages/Settings.jsx:122-164 | flipping a switch twice is the identity |
| Settings.InitialNotificationsState | src/pages/Settings.jsx:20-25 | every notification starts on except marketing e-mails |
| Settings.WithVisibility | src/pages/Settings.jsx:228-252 | a visibility card sets 'public', 'connections' or 'private' and leaves theme, language and time zone unchanged |
| Settings.VisibilityOptionsDistinct | src/pages/Settings.jsx:229-252 | the three cards set three different values |
| Settings.WithLanguage | src/pages/Settings.jsx:355-358 | the language select changes the language only |
| Settings.WithTimezone | src/pages/Settings.jsx:376-379 | the time-zone select changes the time zone only |
| Settings.SettingsPage.constructor | src/pages/Settings.jsx:9-31 | the initial tab, sections, notifications and preferences |
| Settings.SettingsPage.SelectTab | src/pages/Settings.jsx:60 | a tab button sets the active tab |
| Settings.SettingsPage.ToggleSection | src/pages/Settings.jsx:40-45 | the section record becomes the toggled record |
| Settings.SettingsPage.ToggleNotification | src/pages/Settings.jsx:122-164 | the notification record becomes the flipped record |
| Settings.SettingsPage.ChooseVisibility | src/pages/Settings.jsx:230-252 | the preferences take the chosen visibility |
| Settings.SettingsPage.SelectLanguage | src/pages/Settings.jsx:355-358 | the preferences take the chosen language |
| Settings.SettingsPage.SelectTimezone | src/pages/Settings.jsx:376-379 | the preferences take the chosen time zone |
| Register.WithField | src/pages/Register.jsx:20-26 | an edit sets the named field and leaves the other three unchanged |
| Register.Validate | src/pages/Register.jsx:33-43 | 'Passwords do not match' iff the passwords differ; 'Password must be at least 6 characters long' iff they match but are shorter than 6; accepted iff they match and have at least 6 characters |
| Register.RegisterPage.constructor | src/pages/Register.jsx:9-16 | empty form, no error, not loading |
| Register.RegisterPage.HandleChange | src/pages/Register.jsx:20-26 | the form becomes the edited form |
| Register.RegisterPage.BeginSubmit | src/pages/Register.jsx:30-44 | `register` is called iff the form validates; a refused form shows its validation error with loading off; otherwise the error is cleared and loading is on |
| Register.RegisterPage.FinishSubmit | src/pages/Register.jsx:45-56 | success navigates to `/dashboard`; failure shows `result.error` or 'Failed to register'; a throw shows 'An error occurred during registration'; loading ends off |
| Register.RegisterPage.HandleSubmit | src/pages/Register.jsx:28-57 | the whole handler: validation errors stop the submit before `register`; then the three outcomes; loading is off on every exit |
| Register.SubmitToProvider | src/pages/Register.jsx:28-57 | with the real session store, the form is left as typed; a valid form signs in and persists the user with the typed e-mail and name, then goes to the dashboard; a failing write shows 'Registration failed' and changes nothing; a refused form shows its validation error and leaves the session untouched |
| Login.LoginPage.constructor | src/pages/Login.jsx:9-12 | empty fields, no error, not loading |
| Login.LoginPage.SetEmail | src/pages/Login.jsx:74 | the e-mail input sets the e-mail |
| Login.LoginPage.SetPassword | src/pages/Login.jsx:87 | the password input sets the password |
| Login.LoginPage.BeginSubmit | src/pages/Login.jsx:18-19 | submit clears the error and turns loading on, which disables the form and relabels the button |
| Login.LoginPage.FinishSubmit | src/pages/Login.jsx:21-32 | success navigates to `/dashboard`; failure shows `result.error` or 'Failed to login'; a throw shows 'An error occurred during login'; loading ends off and the form is enabled |
| Login.LoginPage.HandleSubmit | src/pages/Login.jsx:16-33 | the whole handler: the three outcomes, loading off after each |
| Login.SubmitToProvider | src/pages/Login.jsx:16-33 | with the real session store, the inputs are left as typed; any password signs in and persists the user with the typed e-mail and goes to the dashboard, unless the storage write throws, which shows 'Invalid credentials' and changes neither user nor storage |
| ForgotPassword.ForgotPasswordPage.constructor | src/pages/ForgotPassword.jsx:8-11 | empty e-mail, no error, not loading, form shown |
| ForgotPassword.ForgotPasswordPage.SetEmail | src/pages/ForgotPassword.jsx:72 | the input sets the e-mail |
| ForgotPassword.ForgotPasswordPage.BeginSubmit | src/pages/ForgotPassword.jsx:15-16 | submit clears the error and turns loading on before the wait |
| ForgotPassword.ForgotPasswordPage.FinishSubmit | src/pages/ForgotPassword.jsx:18-26 | after the wait, success replaces the form with the success view; a rejection shows the fixed failure message; loading ends off |
| ForgotPassword.ForgotPasswordPage.HandleSubmit | src/pages/ForgotPassword.jsx:13-27 | the whole handler, loading off on every path |
| Contact.WithField | src/pages/Contact.jsx:16-22 | an edit sets the named field and leaves the other three unchanged |
| Contact.ContactPage.constructor | src/pages/Contact.jsx:6-14 | empty form, not submitting, no success view |
| Contact.ContactPage.HandleChange | src/pages/Contact.jsx:16-22 | the form becomes the edited form |
| Contact.ContactPage.BeginSubmit | src/pages/Contact.jsx:26 | while waiting the page is submitting, so the button is disabled and reads 'Sending...' |
| Contact.ContactPage.FinishSubmit | src/pages/Contact.jsx:31-38 | after the wait the button is enabled again, success is shown and all four fields are empty |
| Contact.ContactPage.HandleSubmit | src/pages/Contact.jsx:24-39 | the whole handler: not submitting, success shown, every field empty |
| Contact.ContactPage.SendAnother | src/pages/Contact.jsx:108 | 'Send Another Message' hides the success view and leaves the fields alone |
| Feedback.WithField | src/pages/Feedback.jsx:33-39 | an edit sets the named field and leaves the other two unchanged |
| Feedback.ActiveStarsArePrefix | src/pages/Feedback.jsx:96 | the lit stars are always a prefix of the row |
| Feedback.RatingText | src/pages/Feedback.jsx:102 | 'Select a rating' for 0, otherwise "r out of 5 stars" |
| Feedback.FeedbackPage.constructor | src/pages/Feedback.jsx:6-15 | no rating, no hover, no category, empty fields, nothing submitting or shown |
| Feedback.FeedbackPage.HandleRatingHover | src/pages/Feedback.jsx:25-27 | hovering sets the previewed star, leaving sets 0 |
| Feedback.FeedbackPage.HandleRatingClick | src/pages/Feedback.jsx:29-31 | a click on star s sets the rating to s, within 1..5 |
| Feedback.FeedbackPage.SelectCategory | src/pages/Feedback.jsx:114 | a category button sets the category |
| Feedback.FeedbackPage.HandleChange | src/pages/Feedback.jsx:33-39 | the form becomes the edited form |
| Feedback.FeedbackPage.BeginSubmit | src/pages/Feedback.jsx:43 | while waiting the page is submitting and the button disabled |
| Feedback.FeedbackPage.FinishSubmit | src/pages/Feedback.jsx:48-58 | after the wait success is shown, the rating is 0, the category and the fields are empty, and the submit button is disabled again |
| Feedback.FeedbackPage.HandleSubmit | src/pages/Feedback.jsx:41-59 | the whole handler: not submitting, success shown, everything reset |
| Feedback.FeedbackPage.NewFeedback | src/pages/Feedback.jsx:80 | 'Submit Another Feedback' hides the success view |
| Navbar.HiddenOnUnguardedPages | src/components/layout/Navbar.jsx:28-30 | the bar renders nothing only on paths the router serves without its guard |
| Navbar.UnguardedPagesByMatchingForm | src/components/layout/Navbar.jsx:28-30 | the router serves a path without its guard iff its matching form is one of the bar's three paths |
| Navbar.RespelledSignInPathNotHidden | src/components/layout/Navbar.jsx:28-30 | the bar's test is exact where the router's is not: `/Login` gets the login page but is not a sign-in page to the bar |
| Navbar.AvatarInitial | src/components/layout/Navbar.jsx:68 | one character: the upper-cased first letter of a non-empty name, otherwise the placeholder |
| Navbar.ProfileName | src/components/layout/Navbar.jsx:70 | never empty: the name, or 'User' when the name is missing or empty |
| Navbar.AvatarMatchesName | src/components/layout/Navbar.jsx:68-70 | avatar and name agree: both fall back together, otherwise the avatar is the initial of the name shown |
| Navbar.LoginUserShown | src/components/layout/Navbar.jsx:68-70 | a user from `login` shows as 'T' and 'Test User' |
| Navbar.NavbarState.constructor | src/components/layout/Navbar.jsx:12-13 | menu closed, not scrolled |
| Navbar.NavbarState.HandleScroll | src/components/layout/Navbar.jsx:16-18 | scrolled iff the scroll offset exceeds 20 |
| Navbar.NavbarState.ToggleProfileMenu | src/components/layout/Navbar.jsx:66 | the profile button flips the menu |
| Navbar.HandleLogout | src/components/layout/Navbar.jsx:23-26 | logout clears the user and the 'user' key, then navigates to `/login` |
| LearningPaths.Clicked | src/pages/LearningPaths.jsx:76 | a click on the selected card clears the selection; a click on any other card selects it |
| LearningPaths.AtMostOneExpanded | src/pages/LearningPaths.jsx:77 | two expanded cards are the same card |
| LearningPaths.ClickOpensOnlyTarget | src/pages/LearningPaths.jsx:76-77 | after a click the clicked card is open iff it was closed, and no other card is open |
| LearningPaths.ClickTwice | src/pages/LearningPaths.jsx:76 | two clicks on a card leave it as it was and every other card closed |
| LearningPaths.ContinueLabel | src/pages/LearningPaths.jsx:125 | 'Start Path' iff the path's progress is 0, otherwise 'Continue Learning' |
| LearningPaths.LearningPathsPage.constructor | src/pages/LearningPaths.jsx:6 | nothing selected at first |
| LearningPaths.LearningPathsPage.ClickPath | src/pages/LearningPaths.jsx:76 | the selection becomes the clicked selection |
| DashboardLayout.Layout.constructor | src/components/layout/DashboardLayout.jsx:9-10 | sidebar open; mobile iff the width is at most 768 |
| DashboardLayout.Layout.HandleResize | src/components/layout/DashboardLayout.jsx:13-17 | mobile iff the width is at most 768; a mobile width closes the sidebar; a wider one leaves it as it was |
| DashboardLayout.Layout.ToggleSidebar | src/components/layout/DashboardLayout.jsx:24-26 | the menu button flips the sidebar |
| DashboardLayout.Mount | src/components/layout/DashboardLayout.jsx:12-22 | after mounting, the sidebar is open iff the window is wider than 768 |

Definitions without a contract of their own, used in the contracts above:
`App.InMatchingForm`; `Navbar.IsAuthPage` and `Navbar.IsScrolled`;
`DashboardLayout.IsMobileWidth`, the 768-pixel breakpoint test;
`Faq.FaqPage.IsExpanded`, `LearningPaths.IsExpanded`, `Settings.IsOpen`,
`Settings.Notification` and `Settings.VisibilityValue`;
`Feedback.StarActive` and `Feedback.SubmitDisabled`; the pages' match
predicates (`Faq.KeepGroup`, `HelpCenter.MatchesArticle`,
`Mentors.MatchesMentor`); the form accessors `Register.Get`, `Contact.Get`
and `Feedback.Get`; the object invariants `Faq.FaqPage.Valid` and
`Feedback.FeedbackPage.Valid`; `Text.LowerChar`, `Text.UpperChar`,
`Text.OccursAt`, `Text.Includes` and `Text.ContainsIgnoringCase`;
`Lists.Any`, `Lists.IsSubsequence` and `Lists.NoDuplicates`; and the pages'
`FormDisabled`, `SubmitDisabled`, `SubmitLabel` and `ShowsForm`.

## Left out

- Login.SubmitToProvider, Register.SubmitToProvider and the pages' `HandleSubmit` and `BeginSubmit` methods (Login, Register, ForgotPassword, Contact, Feedback): the browser's form checking is not modelled. Before `submit` fires, the browser refuses a form with an empty `required` field or a malformed `type="email"` value, and the Feedback submit button stays disabled until a rating and a category are chosen. The handlers here accept every input, including ones the page never submits, such as an empty password that `login` would accept.
- Rendering, styling and theme constants: there is no behaviour in them.
- The pages' literal content tables (FAQ texts, articles, mentors, courses, learning paths): the filters are modelled over any list of records.
- Timers: each `await` of a `setTimeout` promise is one step, and overlapping calls (two logins in flight) are not modelled, since that is concurrency.
- The scroll and resize listeners and `localStorage` as browser APIs: only the handlers' bodies are modelled, and storage is an abstract map.
- `JSON.parse` and `JSON.stringify` are the identity on records; a corrupt stored value, which would make the initial read throw, cannot be expressed.
- Avatar URL building: `encodeURIComponent` and the avatar service URL are kept symbolic as `UiAvatarFor(name)`.
- Unicode case mapping: `Text.LowerChar` and `Text.UpperChar` map ASCII letters only; string lengths count characters, where JavaScript counts UTF-16 code units (the same on ASCII).
- `Navbar.NavbarState.HandleScroll` takes the scroll offset as a real number; `DashboardLayout` takes the width as an integer.
- react-router: only the target path of a navigation is modelled, not history or `Link` rendering.
- Route matching: the location is not percent-decoded before it is compared with the table, and case is ignored for ASCII letters only, which is all the table's paths contain.
- The `e.preventDefault()` calls of the form handlers: they only stop the browser's own form submission.
- Feedback.FeedbackPage.HandleRatingClick and HandleRatingHover: take only the star numbers the five star buttons pass (1 to 5, and 0 when the pointer leaves), which is what keeps the rating within 0..5.
- Settings: the theme options are displayed but have no handler in the source, so there is no theme setter.
- The catch branches of `resetPassword` and of the forgot-password page can only run if a timer promise rejects, which it never does; the model keeps them behind a `fails` flag.
