# Luminara-Web session, profile and form logic in Dafny

This project models the parts of the Luminara-Web front end that make decisions rather than
draw things:

- the authentication context: the session state, the profile-completeness rule, and the
  operations `checkAuthState`, `login`, `register`, `logout`, `enterGuestMode`, `exitGuestMode`,
  `updateProfile` and `clearError`;
- the Cognito attribute mapping: reading a user from its attributes, building the attribute
  dictionary for an update, and the checks in `signIn`;
- the form validators of the register, login, forgot-password and edit-profile screens;
- the problem-history filter and its list of distinct subjects;
- the small UI state machines: theme, chat, journal and dashboard;
- the route decision of `AppContent`.

Each source file becomes one module. The shared modules are:

- `Common`: `Option`, `Result` and `Outcome`, plus `Thrown`, a thrown value that is either an
  `Error` with a message or something else.
- `Ascii`: character classes, case mapping, trimming and substring search.
- `JsNumbers`: a number that is an integer or `NaN`, JavaScript truthiness, `parseInt(s, 10)` and
  `toString`.
- `Types`: the user record, the partial-user patch and the problem entry.
- `Patterns`: the three regular expressions, written as character-class predicates.
- `Dictionaries`: a string dictionary built by conditional writes.

How the source's forms are modelled:

- **State.** Where the source keeps state through `useState`, the model has a class whose fields
  are that state and whose methods change them.
- **Session transitions.** The session's transitions are also written as functions on a
  `SessionState` value. The `AuthProvider` methods are proved to follow them.
- **Service calls.** Every call to AWS, the mock API or an `onSubmit` callback becomes a
  parameter that says how the call ended: `Outcome` for a call with no result, `Result<T>` for a
  call with a value.
- **The clock.** Date and time values are parameters (`now`, `hour`).
- **Users.** The user record carries the optional profile fields `middleName`,
  `preferredUsername`, `age`, `country`, `language`, `school`, `grade` and `isProfileComplete`.
  `src/types/index.ts` does not declare these fields. `AuthContext.tsx` and `cognito.ts` read and
  write them all the same, and the model follows that code.

## Model

| member | source | states |
|---|---|---|
| AuthContext.CheckProfileCompletion | src/contexts/AuthContext.tsx:40-44 | The completeness rule itself. `ProfileCompletionRule` states it field by field, and `GateMatchesCompleteness` and `CompletenessRuleImpliesFlag` relate it to the modal gate and the Cognito flag. |
| AuthContext.ProfileCompletionRule | src/contexts/AuthContext.tsx:40-44 | No user is incomplete. A user is complete exactly when first and last name are non-empty, the preferred username is present and non-empty, and the age is present, not NaN and not 0. |
| AuthContext.IsAuthenticated | src/contexts/AuthContext.tsx:37 | The authenticated status itself: a user is present and guest mode is off. `ApplyAuthenticated`, `AuthenticatedIffSignInStands` and `AnonymousStart` state how the operations change it. |
| AuthContext.Initial | src/contexts/AuthContext.tsx:31-35 | The mounted session is consistent, not authenticated, and loading. |
| AuthContext.AfterCheckAuthState | src/contexts/AuthContext.tsx:50-68 | It never throws, and loading ends false. A found user is stored with its completeness computed. A null lookup and a thrown lookup both leave no user and completeness false. Guest flag, error and storage are untouched. |
| AuthContext.AfterLogin | src/contexts/AuthContext.tsx:70-89 | Loading ends false on both paths. Success stores the user with its completeness, leaves guest mode, leaves the error null and authenticates. The `rememberUser` key is added only on success with rememberMe, and no storage key is removed. Failure records the message or the fixed default, keeps user, guest flag, completeness and storage, and rethrows the same value. |
| AuthContext.AfterRegister | src/contexts/AuthContext.tsx:91-100 | Only the loading flag changes, and it ends false. The sign-up outcome propagates and authentication is unchanged. |
| AuthContext.AfterLogout | src/contexts/AuthContext.tsx:110-121 | A successful sign-out clears user, guest flag and completeness, and removes exactly the `rememberUser` key. A failed one changes only loading, which ends false, and rethrows. |
| AuthContext.LogoutIdempotent | src/contexts/AuthContext.tsx:110-121 | A second successful logout leaves the state the first left. |
| AuthContext.AfterEnterGuestMode | src/contexts/AuthContext.tsx:127-145 | It sets the guest and completeness flags. It installs the user `guest` with `Guest`/`User` names, empty email, level 1, rank `Beginner` and zero counters. The guest is not authenticated and the state stays consistent. |
| AuthContext.GuestCompleteByFiat | src/contexts/AuthContext.tsx:127-145 | The guest is flagged complete, although the completeness rule calls the guest identity incomplete. |
| AuthContext.AfterExitGuestMode | src/contexts/AuthContext.tsx:147-151 | It clears guest flag, completeness and user. Loading, error and storage are untouched. |
| AuthContext.GuestRoundTrip | src/contexts/AuthContext.tsx:127-151 | Entering and then leaving guest mode returns an anonymous session to exactly where it was. |
| AuthContext.AfterUpdateProfile | src/contexts/AuthContext.tsx:157-167 | With no user it throws "No user to update" and changes nothing. Otherwise the user becomes the merge of record and patch, with completeness recomputed from the merge, and every other part of the state is unchanged. |
| AuthContext.AfterClearError | src/contexts/AuthContext.tsx:153-155 | The error becomes null and nothing else changes. |
| AuthContext.Merge | src/contexts/AuthContext.tsx:160 | The spread `{ ...user, ...updates }` itself. `MergeKeepsUnsupplied`, `MergeTakesSupplied`, `MergeNoChanges`, `MergeIdempotent` and `MergeThen` state its properties. |
| AuthContext.MergeNoChanges | src/contexts/AuthContext.tsx:160 | An empty patch leaves the user unchanged. |
| AuthContext.MergeIdempotent | src/contexts/AuthContext.tsx:160 | Applying the same patch twice equals applying it once. |
| AuthContext.MergeThen | src/contexts/AuthContext.tsx:160 | Two successive patches equal one patch combined by the same spread rule. |
| AuthContext.MergeKeepsUnsupplied | src/contexts/AuthContext.tsx:160 | Each of the 21 user fields that the patch does not supply keeps the user's value. |
| AuthContext.MergeTakesSupplied | src/contexts/AuthContext.tsx:160 | Each of the 21 user fields that the patch supplies takes the patch's value. |
| AuthContext.ApplyAuthenticated | src/contexts/AuthContext.tsx:37 | A successful login authenticates. A failed login, a failed logout, registration, a profile update and clearing the error leave the authenticated status as it was. A successful logout, guest entry and guest exit leave the session unauthenticated. |
| AuthContext.AuthenticatedIffSignInStands | src/contexts/AuthContext.tsx:37-151 | After any sequence of operations, the session is authenticated exactly when it started authenticated with no identity change since, or some successful login has no identity change after it. |
| AuthContext.AnonymousStart | src/contexts/AuthContext.tsx:31-37 | From the initial state, a session is authenticated exactly when some successful login stands. Guest mode alone never authenticates. |
| AuthContext.ApplyConsistent | src/contexts/AuthContext.tsx:35-167 | Every operation keeps the completeness flag equal to the flag stored in the user record. |
| AuthContext.CheckAuthStateConsistent | src/contexts/AuthContext.tsx:50-68 | The mount-time lookup keeps that agreement. |
| AuthContext.RunConsistent | src/contexts/AuthContext.tsx:31-167 | Any sequence of operations keeps that agreement. |
| AuthContext.AuthProvider.constructor | src/contexts/AuthContext.tsx:31-35 | The fields start as the initial session. |
| AuthContext.AuthProvider.CheckAuthState | src/contexts/AuthContext.tsx:50-68 | The new state is the `checkAuthState` transition of the old one, and consistency is kept. |
| AuthContext.AuthProvider.Login | src/contexts/AuthContext.tsx:70-89 | The new state and outcome are the login transition of the old state, and consistency is kept. |
| AuthContext.AuthProvider.Register | src/contexts/AuthContext.tsx:91-100 | The new state and outcome are the register transition. |
| AuthContext.AuthProvider.Logout | src/contexts/AuthContext.tsx:110-121 | The new state and outcome are the logout transition. |
| AuthContext.AuthProvider.EnterGuestMode | src/contexts/AuthContext.tsx:127-145 | The new state is the guest-entry transition. |
| AuthContext.AuthProvider.ExitGuestMode | src/contexts/AuthContext.tsx:147-151 | The new state is the guest-exit transition. |
| AuthContext.AuthProvider.ClearError | src/contexts/AuthContext.tsx:153-155 | Only the error changes, and it becomes null. |
| AuthContext.AuthProvider.UpdateProfile | src/contexts/AuthContext.tsx:157-167 | The new state and outcome are the update transition. |
| Cognito.MapCognitoUserToAppUser | src/lib/aws/cognito.ts:17-45 | The id is the given userId and the last-login time is the clock value. The completeness flag holds iff the four mandatory attributes are non-empty. The age is absent iff `custom:age` is missing or empty, and otherwise is its `parseInt`. The text fields are stated by `MapNames`, `MapPlaces` and `MapRankAndCreation`. |
| Cognito.MapNames | src/lib/aws/cognito.ts:24-29 | Email, first, last, middle and preferred name each read as the stored attribute when it is present and non-empty, and as the empty string otherwise. |
| Cognito.MapPlaces | src/lib/aws/cognito.ts:31-34 | Country, language, school and grade each read as the stored attribute when present and non-empty, and as the empty string otherwise. |
| Cognito.MapRankAndCreation | src/lib/aws/cognito.ts:36-41 | The rank is the stored `custom:rank`, or `Beginner` when it is missing or empty. The creation time is the stored `created_at`, or now when it is missing or empty. |
| Cognito.CounterDefaults | src/lib/aws/cognito.ts:35-40 | Missing counters read as level 1 and 0 for points, streak, hours and problems. |
| Cognito.CounterDigits | src/lib/aws/cognito.ts:30-40 | A counter or age stored as decimal digits reads as its base-10 value. |
| Cognito.GetCurrentUser | src/lib/aws/cognito.ts:104-112 | A failed lookup yields null, and this is the only case that yields null. A successful lookup yields the mapped user. |
| Cognito.CompletenessRuleImpliesFlag | src/lib/aws/cognito.ts:18-21 | Every mapped user the profile rule calls complete is also flagged complete. |
| Cognito.FlagDoesNotImplyRule | src/lib/aws/cognito.ts:18-30 | The converse fails: an age stored as "0" is flagged complete, but the age parses to the falsy 0. |
| Cognito.EntriesDistinct | src/lib/aws/cognito.ts:117-125 | The nine writable attribute names are distinct and are exactly the fixed key set. |
| Cognito.AttributesForSpec | src/lib/aws/cognito.ts:116-125 | The update writes only writable keys. It writes a key exactly when its field's text is non-empty, and the value written is that text. |
| Cognito.UpdateCognitoUserAttributes | src/lib/aws/cognito.ts:114-132 | The dictionary built field by field is the specified update dictionary, and the service outcome is returned. |
| Cognito.ReadWritten | src/lib/aws/cognito.ts:117-127 | After the update is merged into the stored attributes, a written attribute reads back as written. An unwritten one reads back as stored. |
| Cognito.ReadUnwritten | src/lib/aws/cognito.ts:116-125 | An attribute outside the writable set reads back as stored. |
| Cognito.WriteThenReadNames | src/lib/aws/cognito.ts:26-120 | Truthy first, last, middle and preferred names read back unchanged through the mapping. |
| Cognito.WriteThenReadAge | src/lib/aws/cognito.ts:30-121 | A truthy age reads back as the same number. |
| Cognito.WriteThenReadPlaces | src/lib/aws/cognito.ts:31-125 | Truthy country, language, school and grade read back unchanged. |
| Cognito.WriteThenReadUntouchedNames | src/lib/aws/cognito.ts:26-120 | First, last, middle and preferred names that the update leaves out (falsy in the patch) read back as they were stored. |
| Cognito.WriteThenReadUntouchedAge | src/lib/aws/cognito.ts:30-121 | An age the update leaves out reads back as it was stored. |
| Cognito.WriteThenReadUntouchedPlaces | src/lib/aws/cognito.ts:31-125 | Country, language, school and grade that the update leaves out read back as they were stored. |
| Cognito.WriteThenReadUnwritten | src/lib/aws/cognito.ts:25-125 | Fields the update never writes read back as before: email, rank, creation time, level, points, streak, hours and problems solved. |
| Cognito.SignIn | src/lib/aws/cognito.ts:49-65 | A password that is not a string rejects with the fixed message. A service failure rejects with the same value. `isSignedIn` false rejects with the fixed message. Sign-in resolves exactly when the password is a string and the service reports signed in, and then resolves with whatever the user lookup returned. |
| Cognito.SignInResolvesWithoutUser | src/lib/aws/cognito.ts:60 | As written, sign-in resolves with null when the follow-up lookup finds nobody. |
| Cognito.SignInChecked | src/lib/aws/cognito.ts:49-65 | Sign-in resolves with a user exactly when it resolves as written and the lookup found someone. Rejections keep the same thrown value. A null lookup rejects as an unfinished sign-in. |
| JsNumbers.ParseInt | src/lib/aws/cognito.ts:30-40 | `parseInt(s, 10)` itself. `ParseIntToString`, `CounterDigits` and `CounterDefaults` state what it yields on the stored attributes. |
| JsNumbers.IntToString | src/lib/aws/cognito.ts:121 | `toString()` of an integer: non-empty decimal text, with `ParseIntToString` as its inverse. |
| JsNumbers.ParseIntToString | src/lib/aws/cognito.ts:121 | `parseInt` of an integer's decimal text is that integer. |
| Ascii.LowerOfUpper | src/hooks/useProblemHistory.ts:30-32 | Lower-casing after upper-casing equals lower-casing. |
| Ascii.TrimSpec | src/pages/auth/RegisterPage.tsx:158-163 | The trimmed text is a slice of the input with no outer whitespace. It is empty exactly when the input is blank. |
| Patterns.SimpleEmail | src/pages/auth/RegisterPage.tsx:167 | The registration email pattern itself. `SimpleEmailOfParts` and `SimpleEmailParts` state it in both directions. |
| Patterns.LoginEmail | src/pages/auth/LoginPage.tsx:25 | The login email pattern itself. `LoginEmailIsSimpleEmail` and `SimpleEmailNotLoginEmail` compare it with the registration pattern. |
| Patterns.StrongPassword | src/pages/auth/RegisterPage.tsx:171 | The password pattern itself: at least 8 allowed characters, with a lowercase letter, an uppercase letter and a digit. `PasswordRule` states it through the validator. |
| Patterns.SimpleEmailOfParts | src/pages/auth/RegisterPage.tsx:167 | Any non-empty A, B and C without whitespace or `@` form a valid `A@B.C` address. |
| Patterns.SimpleEmailParts | src/pages/auth/RegisterPage.tsx:167 | Every valid address splits into such an A, B and C. |
| Patterns.LoginEmailIsSimpleEmail | src/pages/auth/LoginPage.tsx:25 | Every address the login pattern accepts is also accepted by the registration pattern. |
| Patterns.SimpleEmailNotLoginEmail | src/pages/auth/LoginPage.tsx:25 | The converse fails: `a@b.c` passes registration but not login, whose last label needs 2 to 4 characters. |
| RegisterPage.ValidateField | src/pages/auth/RegisterPage.tsx:154-183 | The per-field validator itself. `NameRule`, `EmailRule`, `PasswordRule`, `ConfirmRule` and `EmptinessFirst` state its rules. |
| RegisterPage.NameRule | src/pages/auth/RegisterPage.tsx:157-164 | An empty or whitespace-only name gives the required message, a trimmed length of 1 gives the too-short message, and any other name gives no error. |
| RegisterPage.EmailRule | src/pages/auth/RegisterPage.tsx:165-167 | An empty email gives the required message. Otherwise the email is valid exactly when it has the form A@B.C; if it is not, the error is the invalid-email message. |
| RegisterPage.PasswordRule | src/pages/auth/RegisterPage.tsx:169-173 | An empty password gives the required message. A password is valid exactly when it is at least 8 allowed characters and contains a lowercase letter, an uppercase letter and a digit. |
| RegisterPage.ConfirmRule | src/pages/auth/RegisterPage.tsx:175-177 | The confirmation has an error exactly when it is empty or differs from the form's password. If empty, the error is the confirm-required message. |
| RegisterPage.EmptinessFirst | src/pages/auth/RegisterPage.tsx:155-182 | An unknown field name never has an error. For each of the five fields, an empty value gives that field's required message before any format check. |
| RegisterPage.FormErrorsSpec | src/pages/auth/RegisterPage.tsx:202-211 | The error dictionary holds exactly the failing fields, each with its message. The form is valid exactly when the dictionary is empty. |
| RegisterPage.BlankFieldsFail | src/pages/auth/RegisterPage.tsx:155-211 | A form whose five fields are all empty has an error for exactly those five fields. |
| RegisterPage.EmptyFormFails | src/pages/auth/RegisterPage.tsx:143-211 | Submitting the initial empty form flags all five fields. |
| RegisterPage.CollectErrors | src/pages/auth/RegisterPage.tsx:202-211 | The loop's dictionary is the specified error dictionary. Its validity flag holds exactly when the form is valid. |
| RegisterPage.RegisterPage.constructor | src/pages/auth/RegisterPage.tsx:143-152 | The form starts as the five empty fields, with no errors. |
| RegisterPage.RegisterPage.HandleChange | src/pages/auth/RegisterPage.tsx:185-197 | The named field takes the new value and its error is recomputed against the new form. Editing the password re-validates a non-empty confirmation against the new password. |
| RegisterPage.RegisterPage.HandleSubmit | src/pages/auth/RegisterPage.tsx:199-223 | `register` runs exactly when the form is valid. An invalid form leaves the non-empty error dictionary. A successful registration navigates to `/auth/confirm-signup`. A failed one sets the general error from the message or `Registration failed`. |
| LoginPage.LoginFieldErrors | src/pages/auth/LoginPage.tsx:22-31 | The login form's error dictionary itself, specified by `LoginFieldErrorsSpec`. |
| LoginPage.LoginFieldErrorsSpec | src/pages/auth/LoginPage.tsx:22-31 | An empty email gives the required message, and an email the login pattern rejects gives the invalid-email message. An empty password gives the required message. There are no other keys and no other password rule. |
| LoginPage.LoginPage.constructor | src/pages/auth/LoginPage.tsx:15 | The fields start empty, with no field errors. |
| LoginPage.LoginPage.HandleLogin | src/pages/auth/LoginPage.tsx:19-37 | It clears the context error first, then replaces the field errors wholesale with the computed ones. The login goes ahead exactly when there are none. |
| ForgotPasswordPage.ResetEmailError | src/pages/auth/ForgotPasswordPage.tsx:129-140 | The reset form's email check itself, specified by `ResetEmailRule`. |
| ForgotPasswordPage.ResetEmailRule | src/pages/auth/ForgotPasswordPage.tsx:129-140 | An empty email gives "Email is required" and a malformed one the invalid-address message. The error is empty exactly when the email has the form A@B.C. |
| ForgotPasswordPage.ForgotPasswordPage.constructor | src/pages/auth/ForgotPasswordPage.tsx:125-127 | Empty email, not sent, no error. |
| ForgotPasswordPage.ForgotPasswordPage.ValidateEmail | src/pages/auth/ForgotPasswordPage.tsx:129-140 | It sets the error to the rule's message and returns true exactly when that message is empty. |
| ForgotPasswordPage.ForgotPasswordPage.HandleSubmit | src/pages/auth/ForgotPasswordPage.tsx:142-154 | The reset is requested exactly when the email is valid. Success sets `emailSent`. Failure sets the message or the default and leaves `emailSent` unset. |
| EditProfileModal.PrefillForm | src/components/common/EditProfileModal.tsx:26-40 | The form has the nine keys. Each takes the user's value, or the empty string when that value is missing or falsy. |
| EditProfileModal.MandatoryFilled | src/components/common/EditProfileModal.tsx:47-49 | The modal's mandatory-field gate itself: first name, last name, preferred username and age are non-empty. `GateMatchesCompleteness` relates it to the completeness rule. |
| EditProfileModal.GateMatchesCompleteness | src/components/common/EditProfileModal.tsx:26-52 | A form prefilled from a user passes the mandatory gate exactly when the completeness rule of `AuthContext.tsx` (lines 40-44) calls the user complete. |
| EditProfileModal.EditProfileModal.constructor | src/components/common/EditProfileModal.tsx:13-24 | The nine fields start empty and it is not submitting. |
| EditProfileModal.EditProfileModal.Prefill | src/components/common/EditProfileModal.tsx:26-40 | With a user the form becomes the prefilled form. With none it is unchanged. |
| EditProfileModal.EditProfileModal.HandleChange | src/components/common/EditProfileModal.tsx:42-45 | Only the named field changes. |
| EditProfileModal.EditProfileModal.HandleSubmit | src/components/common/EditProfileModal.tsx:47-63 | `onSubmit` is called, with the form, exactly when the four mandatory fields are filled; otherwise the mandatory alert shows. The modal closes only on success, a failure shows the failure alert, and submitting ends false. |
| ProblemHistory.Filter | src/hooks/useProblemHistory.ts:29-37 | The problem filter itself. `FilterMembership`, `FilterIsSubsequence`, `EmptySearchKeepsAll` and `FilterIgnoresCase` state its properties. |
| ProblemHistory.FilterMembership | src/hooks/useProblemHistory.ts:29-37 | A problem is in the filtered list exactly when it is in the list and both conditions hold. The first condition is that title, description or a tag contains the term, compared lower-cased. The second is that the subject is `all` or matches. |
| ProblemHistory.FilterIsSubsequence | src/hooks/useProblemHistory.ts:29 | The filtered list is an order-preserving sub-list of the problems. |
| ProblemHistory.EmptySearchKeepsAll | src/hooks/useProblemHistory.ts:30-34 | An empty term with subject `all` keeps every problem. |
| ProblemHistory.FilterIgnoresCase | src/hooks/useProblemHistory.ts:30-32 | Upper-casing the search term does not change the result. |
| ProblemHistory.FirstIndex | src/hooks/useProblemHistory.ts:39 | The index returned is the first position of the value. |
| ProblemHistory.Distinct | src/hooks/useProblemHistory.ts:39 | De-duplication through a `Set`, kept in first-occurrence order, specified by `DistinctSpec`. |
| ProblemHistory.DistinctSpec | src/hooks/useProblemHistory.ts:39 | De-duplication keeps exactly the values present, once each, in first-occurrence order. |
| ProblemHistory.Subjects | src/hooks/useProblemHistory.ts:39 | The list of distinct subjects itself, specified by `SubjectsSpec`. |
| ProblemHistory.SubjectsSpec | src/hooks/useProblemHistory.ts:39 | The subject list holds exactly the subjects some problem has, each once. |
| ProblemHistory.ProblemHistory.constructor | src/hooks/useProblemHistory.ts:6-10 | No problems, loading, no error, empty term and subject `all`. |
| ProblemHistory.ProblemHistory.FetchProblems | src/hooks/useProblemHistory.ts:13-24 | Loading ends false. Success stores the data and clears the error. Failure keeps the problems and records the message or the default. |
| ProblemHistory.ProblemHistory.Refetch | src/hooks/useProblemHistory.ts:50-53 | Loading ends false. Success stores the data and failure keeps the old problems. The error is never touched. |
| ProblemHistory.ProblemHistory.SetSearchTerm | src/hooks/useProblemHistory.ts:9 | Only the search term changes. |
| ProblemHistory.ProblemHistory.SetSelectedSubject | src/hooks/useProblemHistory.ts:10 | Only the selected subject changes. |
| ThemeContext.InitialMode | src/contexts/ThemeContext.tsx:19-22 | The mode is the stored value when non-empty, otherwise `light`. |
| ThemeContext.SelectTheme | src/contexts/ThemeContext.tsx:24 | The theme is light exactly when the mode is `light`. |
| ThemeContext.NextMode | src/contexts/ThemeContext.tsx:27 | `light` goes to `dark` and every other mode goes to `light`, so the shown theme always changes. |
| ThemeContext.ToggleTwice | src/contexts/ThemeContext.tsx:27 | Two toggles from `light` or `dark` restore the mode. |
| ThemeContext.ToggleTwiceUnknownMode | src/contexts/ThemeContext.tsx:21-27 | An unvalidated stored mode such as `blue` shows the dark theme and comes back as `dark` after two toggles. |
| ThemeContext.ToggledModePersists | src/contexts/ThemeContext.tsx:19-29 | After a toggle, the next mount restores the new mode. |
| ThemeContext.ThemeProvider.constructor | src/contexts/ThemeContext.tsx:19-22 | The mode starts as the initial mode of the storage. |
| ThemeContext.ThemeProvider.ToggleTheme | src/contexts/ThemeContext.tsx:26-30 | The mode becomes the next mode and exactly that value is stored under `theme`. |
| ChatPage.ChatPage.constructor | src/pages/ChatPage.tsx:5-10 | Tab `new`, empty input, and the two seeded messages from assistant and user. |
| ChatPage.ChatPage.SetMessage | src/pages/ChatPage.tsx:6 | Only the input changes. |
| ChatPage.ChatPage.HandleSendMessage | src/pages/ChatPage.tsx:12-16 | A blank input changes nothing. Otherwise exactly one message is appended, with the untrimmed text and sender `user`, and the input is cleared. |
| ChatPage.ChatPage.SetActiveTab | src/pages/ChatPage.tsx:25-35 | Only the tab changes. |
| JournalPage.JournalPage.constructor | src/pages/JournalPage.tsx:7-10 | Empty entry and correction, correction hidden, tab `new`. |
| JournalPage.JournalPage.SetEntry | src/pages/JournalPage.tsx:7 | Only the entry changes. |
| JournalPage.JournalPage.HandleCorrectWithAI | src/pages/JournalPage.tsx:12-16 | The correction is the upper-cased entry and is shown. The entry is unchanged. |
| JournalPage.JournalPage.HandleAcceptChanges | src/pages/JournalPage.tsx:18-21 | The entry becomes the correction and the correction is hidden. |
| JournalPage.JournalPage.HandleKeepOriginal | src/pages/JournalPage.tsx:23-25 | Only the correction is hidden. |
| JournalPage.JournalPage.SetActiveTab | src/pages/JournalPage.tsx:34-39 | Only the tab changes. |
| Dashboard.Greeting | src/pages/Dashboard.tsx:26-31 | Good morning exactly before 12, good afternoon exactly from 12 to 17, good evening exactly from 18 on. |
| Dashboard.DifficultyClass | src/pages/Dashboard.tsx:17-24 | Easy gives green, medium yellow, hard red, all exactly, and every other value gray. |
| Dashboard.DashboardPage.constructor | src/pages/Dashboard.tsx:36-38 | No data, loading, no error. |
| Dashboard.DashboardPage.LoadDashboardData | src/pages/Dashboard.tsx:40-52 | Loading ends false. Success stores the data. Failure sets the fixed message. |
| AppRoutes.Route | src/App.tsx:57-117 | The spinner shows exactly while loading. An authenticated user on an auth path goes to `/`, and an anonymous user elsewhere goes to `/auth/login`. Those are the only redirect targets. A rendered page is an auth page exactly when the user is not authenticated. |
| AppRoutes.UnknownPaths | src/App.tsx:88-106 | An unknown auth sub-path goes to `/auth/login` and an unknown protected path goes to `/`. |
| AppRoutes.RedirectSettles | src/App.tsx:77-113 | Following a redirect once reaches a rendered page. |
| AppRoutes.GuestRoutedAsAnonymous | src/App.tsx:80-98 | A guest is never authenticated (`AuthContext.tsx` line 37), so a guest is routed exactly like an anonymous user. A guest at `/` is sent to `/auth/login`. |

## Left out

- The offline submission queue described for the product does not exist in the code, so it is
  not modelled.
- The service pass-throughs `confirmSignUp`, `resendSignUpCode` and `resetPassword`
  (`AuthContext.tsx:102-108, 123-125`) are not modelled. Neither are `signUp`, `signOut`,
  `forgotPassword` and `confirmResetPassword` in `cognito.ts`. Each only forwards to Amplify and
  rethrows, and each appears in the model only as the outcome its caller sees.
- AfterLogin, AfterRegister, AfterLogout and the other `AuthContext` transitions give only the
  state after the operation has settled. The interval while the first `setIsLoading(true)`
  is in force, and any interleaving of concurrent operations, are not modelled (React scheduling).
- AuthContext.AfterRegister: the value `signUp` resolves with is ignored, as the code ignores it.
- Cognito.MapCognitoUserToAppUser: `parseInt` is modelled for an optional sign followed by decimal
  digits, with leading whitespace skipped and trailing text ignored. Numbers are unbounded
  integers, so precision limits, exponents and fractions are not modelled.
- Cognito.MapCognitoUserToAppUser: the two clock readings (`created_at` fallback and
  `lastLoginAt`) are one `now` parameter, and `enterGuestMode` does the same. The `Date.now()`
  message id in the chat is a parameter too.
- Cognito.UpdateCognitoUserAttributes: the Amplify call is an outcome parameter. How the service
  merges the sent dictionary into stored attributes is taken to be `stored + sent` in the
  round-trip lemmas. The model does not distinguish an explicitly `undefined` patch value from a
  missing one.
- EditProfileModal.PrefillForm: the source copies a numeric age into the form as a number. The
  model's form holds text, so the age is its decimal text.
- LoginPage.LoginPage.HandleLogin: only the validation and gating are modelled. The page calls
  `login({...})` with one object argument and `continueAsGuest`, and neither matches what the
  context provides (`LoginPage.tsx:9, 40, 49`).
- Text handling is ASCII only: lower- and upper-casing, `trim`, `\s` and `\w`. The path is
  compared as given, without react-router's case folding or trailing-slash handling.
- ProblemHistory.ProblemHistory.Refetch: a rejection is unhandled in the source. The model keeps
  the old list and ends loading, and the unhandled rejection itself is not modelled.
- Common.MessageOr: a thrown value is taken to be an `Error` object (Amplify throws `AuthError`)
  or a non-null value without a `message`. A thrown `null` or `undefined`, for which reading
  `.message` in the catch block itself throws a `TypeError`, is not modelled. Neither is a
  non-`Error` object carrying a `message`, whose message the code would record.
- Console logging is left out. An `alert` popup appears only as the returned alert text, and
  navigation only as the returned target path. Rendering, styling and the mock data fetchers are
  left out.

## Findings

| source | as written | input that shows it | evidently intended | confidence | as-written member | corrected member |
|---|---|---|---|---|---|---|
| src/lib/aws/cognito.ts:60 | `signIn` returns `getCurrentUser()` cast to `User`. That lookup returns null on any failure, so sign-in can resolve with null. | password "pw", Amplify reports `isSignedIn` true, the follow-up lookup returns null: `SignIn(Some("pw"), Success(true), None) == Success(None)` | sign-in resolves only with a user and otherwise rejects | not executed | Cognito.SignInResolvesWithoutUser | Cognito.SignInChecked |

The login transition (`AuthContext.AfterLogin`) takes the corrected result, `Result<User>`. Under
the code as written, `login` would store `{ ...null, isProfileComplete: false }` as the user: an
object without an id, counted as signed in.
