# Kickstarter for Android: form view models, deep links, discovery and currency display, in Dafny

This project models five pieces of logic from the Kickstarter Android app and proves properties of them.

- **Signup** (`Signup.dfy`, `SignupViewModel.java`).
  - The view model combines the latest full name, email, password and newsletter flag into a snapshot. Every new value re-emits the snapshot's validity.
  - The first config sets the newsletter flag.
  - A signup click sends the latest snapshot to the API client. `formSubmitting` is raised before the call and lowered after it terminates.
  - A success logs the user in and fires `signupSuccess`. Errors go to `signupError` until the first success.
- **Password reset** (`ResetPassword.dfy`, `ResetPasswordViewModel.java`).
  - Each email edit emits whether the text is an email address.
  - A click sends the latest email. A newer click supersedes the call in flight (`switchMap`).
  - The submitting flag, the success output and the error cut-off work as in signup.
- **Deep links** (`KSUri.dfy`, `KSUri.java`).
  - Each URI classifier checks the host against the web endpoint's host, then matches the path.
  - The scope and places patterns for `/discover/...` and the `/projects/...` family are read as segment-by-segment recognisers over the path split at `/`. Each of these recognisers is proved to accept exactly the strings its pattern spells out.
  - The categories pattern `\A/discover/categories/.*` is written directly as a prefix test followed by a check for line terminators. No lemma ties it to a spelled-out form; the only lemma about it shows that no categories path is a scope path or a places path.
- **Discovery helpers** (`DiscoveryUtils.dfy`, `DiscoveryUtils.java`).
  - The sort ↔ tab position mapping.
  - The overlay-lightness rule.
  - Filling in the root category of a featured first project.
- **Currency display** (`KSCurrency.dfy`, `KSCurrency.java`).
  - Whether an amount is converted to US dollars.
  - Whether the currency code is shown.
  - The options each `format` overload hands to the number formatter.

`Common.dfy` holds the shared types: `Option`, the API result, the user and access-token envelope. It also holds small facts about output traces: counting events, and "no event of one kind after one of another".

The two view models are written in two layers:

1. A pure transition `Step(env, state, input)` together with `Run` over a whole input history. The properties are proved about these.
2. A class with one field per subject and methods for the inputs. Each input method is proved to perform exactly `Step` and to keep the invariant `Inv`. The two signup helpers `EmitValidity` and `PushNewsletters` are proved to perform `Revalidate` and `SetNewsletters`.

An API call is split into two inputs. A click dispatches call number `calls`. The result arrives later as `CallTerminated(call, result)`. Signup uses `flatMap`, so any number of calls may be in flight. Password reset uses `switchMap`, so only the newest call is live.

Collaborators that are not part of this model are parameters:

- `StringUtils.isEmail` and `I18nUtils.isCountryUS`;
- `Config.currencyNeedsCode`;
- the `Secrets.RegExpPattern` matchers;
- the parsed web endpoint.

## Model

| member | source | states |
|---|---|---|
| Signup.Utf16Length | app/src/main/java/com/kickstarter/viewmodels/SignupViewModel.java:45 | Java's `String.length()`: at least the number of characters and at most twice it, and equal to it exactly when no character is above U+FFFF |
| Signup.Utf16LengthExact | app/src/main/java/com/kickstarter/viewmodels/SignupViewModel.java:45 | the UTF-16 length is exactly the number of characters plus the number of characters above U+FFFF, which is the value Java's `length()` returns |
| Signup.IsValid | app/src/main/java/com/kickstarter/viewmodels/SignupViewModel.java:44-46 | `SignupData.isValid`: name non-empty, `isEmail(email)`, and password length at least 6 as Java counts it; its effect on the outputs is stated by `Signup.EditRevalidates` and `Signup.OnlyFirstConfigCounts` |
| Signup.SupplementaryPasswordIsLongEnough | app/src/main/java/com/kickstarter/viewmodels/SignupViewModel.java:45 | a password of three characters above U+FFFF is six code units long and passes the length test |
| Signup.Snapshot | app/src/main/java/com/kickstarter/viewmodels/SignupViewModel.java:108-110 | the `combineLatest` value: present once all four inputs have a value; `Signup.RunTracksHistory` ties it to the latest inputs of the history |
| Signup.Step | app/src/main/java/com/kickstarter/viewmodels/SignupViewModel.java:108-163 | the transition for one input; what it does is stated by the history lemmas below and the invariant `Signup.StepPreservesInv` |
| Signup.EditRevalidates | app/src/main/java/com/kickstarter/viewmodels/SignupViewModel.java:108-120 | once all four inputs have values, each new value emits `formIsValid` for the updated snapshot: name non-empty, `isEmail(email)` and password at least 6 UTF-16 code units (`SignupData.isValid`); a toggle also re-emits the flag |
| Signup.NothingUntilAllInputsFed | app/src/main/java/com/kickstarter/viewmodels/SignupViewModel.java:108-110 | until each of the four inputs has a value, no validity is emitted and no call is dispatched |
| Signup.RunTracksHistory | app/src/main/java/com/kickstarter/viewmodels/SignupViewModel.java:49-69 | the state holds exactly the latest value of each input of the history; the flag is the latest toggle, or the first config if that came later |
| Signup.OnlyFirstConfigCounts | app/src/main/java/com/kickstarter/viewmodels/SignupViewModel.java:128-132 | the first config sets the newsletter flag to `isCountryUS` of its country and, as a new flag value, emits `formIsValid` for the updated snapshot (once it exists) and then the flag; any later config changes nothing |
| Signup.ClickSubmitsLatestSnapshot | app/src/main/java/com/kickstarter/viewmodels/SignupViewModel.java:122-126 | a click dispatches a new call with the latest snapshot, valid or not, passing the password as its own confirmation, after `formSubmitting(true)`; before the first snapshot the click is dropped |
| Signup.FailureKeepsPipeline | app/src/main/java/com/kickstarter/viewmodels/SignupViewModel.java:152-158 | a failed call emits its message (unless signup already succeeded), then `formSubmitting(false)`; a later click dispatches again |
| Signup.SuccessLogsInThenFires | app/src/main/java/com/kickstarter/viewmodels/SignupViewModel.java:160-163 | a successful call logs in the envelope's user with its token, then fires `signupSuccess`, then lowers the flag, and cuts the error channel off |
| Signup.TerminatesOnce | app/src/main/java/com/kickstarter/viewmodels/SignupViewModel.java:156-157 | a second result for an already terminated call changes nothing |
| Signup.SubmittingPairs | app/src/main/java/com/kickstarter/viewmodels/SignupViewModel.java:156-157 | in every history there is one `formSubmitting(true)` per dispatched call, and one `false` per terminated call (trues = falses + calls in flight) |
| Signup.ErrorsStopAtSuccess | app/src/main/java/com/kickstarter/viewmodels/SignupViewModel.java:90-95 | in every history no `signupError` follows a `signupSuccess` |
| Signup.StepPreservesInv | app/src/main/java/com/kickstarter/viewmodels/SignupViewModel.java:108-163 | every input keeps the invariant: flags balanced with calls, cut-off iff success occurred, login directly before success, no error after success, password confirmed, and no validity output, no request and no call before the snapshot (the newsletter flag can be emitted earlier) |
| Signup.RunInv | app/src/main/java/com/kickstarter/viewmodels/SignupViewModel.java:101-163 | every reachable state satisfies the invariant |
| Signup.SignupViewModel.constructor | app/src/main/java/com/kickstarter/viewmodels/SignupViewModel.java:101-110 | the new view model has no input values and no outputs, and satisfies the invariant |
| Signup.SignupViewModel.FullName | app/src/main/java/com/kickstarter/viewmodels/SignupViewModel.java:51-53 | performs the full-name transition and keeps the invariant |
| Signup.SignupViewModel.Email | app/src/main/java/com/kickstarter/viewmodels/SignupViewModel.java:55-57 | performs the email transition and keeps the invariant |
| Signup.SignupViewModel.Password | app/src/main/java/com/kickstarter/viewmodels/SignupViewModel.java:59-61 | performs the password transition and keeps the invariant |
| Signup.SignupViewModel.EmitValidity | app/src/main/java/com/kickstarter/viewmodels/SignupViewModel.java:117-120 | appends the snapshot's validity exactly when the snapshot exists |
| Signup.SignupViewModel.PushNewsletters | app/src/main/java/com/kickstarter/viewmodels/SignupViewModel.java:84-87 | pushing the flag re-emits validity, then the flag |
| Signup.SignupViewModel.SendNewslettersClick | app/src/main/java/com/kickstarter/viewmodels/SignupViewModel.java:113-115 | performs the toggle transition and keeps the invariant |
| Signup.SignupViewModel.CurrentConfig | app/src/main/java/com/kickstarter/viewmodels/SignupViewModel.java:128-132 | performs the config transition (only the first counts) and keeps the invariant |
| Signup.SignupViewModel.SignupClick | app/src/main/java/com/kickstarter/viewmodels/SignupViewModel.java:122-126 | performs the click transition, keeps the invariant, and returns the dispatched call's number exactly when a snapshot exists |
| Signup.SignupViewModel.Terminate | app/src/main/java/com/kickstarter/viewmodels/SignupViewModel.java:152-163 | performs the termination transition for the given call and result and keeps the invariant |
| ResetPassword.Step | app/src/main/java/com/kickstarter/viewmodels/ResetPasswordViewModel.java:65-102 | the transition for one input; what it does is stated by the history lemmas below and the invariant `ResetPassword.StepPreservesInv` |
| ResetPassword.EveryEditEmitsValidity | app/src/main/java/com/kickstarter/viewmodels/ResetPasswordViewModel.java:70-73 | every email edit appends exactly `isFormValid(isEmail(email))` |
| ResetPassword.RunTracksEmail | app/src/main/java/com/kickstarter/viewmodels/ResetPasswordViewModel.java:55-58 | the state's email is the latest edited email of the history |
| ResetPassword.ClickSubmitsLatestEmail | app/src/main/java/com/kickstarter/viewmodels/ResetPasswordViewModel.java:75-79 | a click sends the latest email, whatever its validity, after `isFormSubmitting(true)`, and makes that call the live one; before any edit it is dropped |
| ResetPassword.NewerClickSupersedes | app/src/main/java/com/kickstarter/viewmodels/ResetPasswordViewModel.java:77 | the result of any call older than the newest is discarded, so it can neither succeed nor fail visibly |
| ResetPassword.SuccessFiresOnce | app/src/main/java/com/kickstarter/viewmodels/ResetPasswordViewModel.java:100-102 | a successful live call emits `resetSuccess` once, then lowers the flag; a further result for it changes nothing |
| ResetPassword.FailureKeepsPipeline | app/src/main/java/com/kickstarter/viewmodels/ResetPasswordViewModel.java:92-98 | a failed live call emits its message (unless already cut off) and no success, then lowers the flag; a further result for that call changes nothing, and a later click dispatches again |
| ResetPassword.SubmittingFlag | app/src/main/java/com/kickstarter/viewmodels/ResetPasswordViewModel.java:96-97 | one `isFormSubmitting(true)` per dispatched call, and at most one `false` per call (none for a superseded call) |
| ResetPassword.ErrorsStopAtSuccess | app/src/main/java/com/kickstarter/viewmodels/ResetPasswordViewModel.java:42-47 | in every history no `resetError` follows a `resetSuccess` |
| ResetPassword.StepPreservesInv | app/src/main/java/com/kickstarter/viewmodels/ResetPasswordViewModel.java:65-102 | every input keeps the invariant: the live call is the newest, flags counted per call, cut-off iff success occurred, no error after success, and no validity output, no request and no call before the first email |
| ResetPassword.RunInv | app/src/main/java/com/kickstarter/viewmodels/ResetPasswordViewModel.java:65-102 | every reachable state satisfies the invariant |
| ResetPassword.ResetPasswordViewModel.constructor | app/src/main/java/com/kickstarter/viewmodels/ResetPasswordViewModel.java:65-79 | the new view model has no email and no outputs, and satisfies the invariant |
| ResetPassword.ResetPasswordViewModel.Email | app/src/main/java/com/kickstarter/viewmodels/ResetPasswordViewModel.java:55-58 | performs the edit transition and keeps the invariant |
| ResetPassword.ResetPasswordViewModel.ResetPasswordClick | app/src/main/java/com/kickstarter/viewmodels/ResetPasswordViewModel.java:60-63 | performs the click transition, keeps the invariant, and returns the dispatched call's number exactly when an email exists |
| ResetPassword.ResetPasswordViewModel.Terminate | app/src/main/java/com/kickstarter/viewmodels/ResetPasswordViewModel.java:92-102 | performs the termination transition (ignored unless the call is live) and keeps the invariant |
| KSUri.IsKickstarterUri | app/src/main/java/com/kickstarter/services/KSUri.java:41-43 | the URI's host equals the web endpoint's host |
| KSUri.IsDiscoverCategoriesPath | app/src/main/java/com/kickstarter/services/KSUri.java:24-26 | `/discover/categories/` followed by any text without a line terminator (pattern at line 82); see `KSUri.CategoriesPathIsNoOtherDiscoverPath` |
| KSUri.IsDiscoverScopePath | app/src/main/java/com/kickstarter/services/KSUri.java:28-31 | the path matches the scope pattern and its one captured segment equals the scope; stated outright by `KSUri.DiscoverScopePathShape` |
| KSUri.IsDiscoverPlacesPath | app/src/main/java/com/kickstarter/services/KSUri.java:33-35 | the path matches the places pattern; stated outright by `KSUri.DiscoverPlacesPathShape` |
| KSUri.ParseProjectPath | app/src/main/java/com/kickstarter/services/KSUri.java:90-113 | the recogniser for the five project-family patterns, returning the captured pieces; stated by `KSUri.ParseProjectPathComplete` and `KSUri.ParseProjectPathSound` |
| KSUri.IsAndroidPayUri | app/src/main/java/com/kickstarter/services/KSUri.java:14-18 | on the endpoint's host, and the path matches either Android Pay pattern |
| KSUri.IsApiUri | app/src/main/java/com/kickstarter/services/KSUri.java:20-22 | on the endpoint's host, and the host matches the API pattern |
| KSUri.IsHivequeenUri | app/src/main/java/com/kickstarter/services/KSUri.java:37-39 | on the endpoint's host, and the host matches the Hivequeen pattern |
| KSUri.IsStagingUri | app/src/main/java/com/kickstarter/services/KSUri.java:53-55 | on the endpoint's host, and the host matches the staging pattern |
| KSUri.IsProjectUri | app/src/main/java/com/kickstarter/services/KSUri.java:45-47 | on the endpoint's host, and the path is a project path; stated outright by `KSUri.ProjectUriShape` |
| KSUri.IsSignupUri | app/src/main/java/com/kickstarter/services/KSUri.java:49-51 | on the endpoint's host, and the path is exactly `/signup` |
| KSUri.IsCheckoutThanksUri | app/src/main/java/com/kickstarter/services/KSUri.java:57-59 | on the endpoint's host, and the path is a checkout-thanks path; stated outright by `KSUri.CheckoutThanksUriShape` |
| KSUri.IsModalUri | app/src/main/java/com/kickstarter/services/KSUri.java:61-63 | on the endpoint's host, and the `modal` query parameter is present and equal to `true` |
| KSUri.IsProjectUpdateCommentsUri | app/src/main/java/com/kickstarter/services/KSUri.java:65-67 | on the endpoint's host, and the path is an update-comments path of `KSUri.ParseProjectPath` |
| KSUri.IsProjectUpdateUri | app/src/main/java/com/kickstarter/services/KSUri.java:69-71 | on the endpoint's host, and the path is an update path of `KSUri.ParseProjectPath` |
| KSUri.IsProjectUpdatesUri | app/src/main/java/com/kickstarter/services/KSUri.java:73-75 | on the endpoint's host, and the path is an updates path of `KSUri.ParseProjectPath` |
| KSUri.IsWebUri | app/src/main/java/com/kickstarter/services/KSUri.java:77-79 | on the endpoint's host and not an API URI; see `KSUri.WebAndApiPartition` |
| KSUri.ClassifiersRequireKickstarterHost | app/src/main/java/com/kickstarter/services/KSUri.java:14-79 | no classifier (Android Pay, API, Hivequeen, staging, project, signup, checkout thanks, modal, update comments, update, updates, web) holds when the host differs from the web endpoint's |
| KSUri.WebAndApiPartition | app/src/main/java/com/kickstarter/services/KSUri.java:77-79 | a URI on the endpoint's host is a web URI or an API URI, never both |
| KSUri.DiscoverScopePathShape | app/src/main/java/com/kickstarter/services/KSUri.java:28-31 | a scope path holds iff the path is `/discover/` plus the scope, and the scope is a non-empty string over [A-Za-z0-9_-] |
| KSUri.DiscoverPlacesPathShape | app/src/main/java/com/kickstarter/services/KSUri.java:33-35 | a places path holds iff the path is `/discover/places/` plus one non-empty segment over [A-Za-z0-9_-] |
| KSUri.CategoriesPathIsNoOtherDiscoverPath | app/src/main/java/com/kickstarter/services/KSUri.java:82-88 | a categories path is never a scope path, for any scope, and never a places path |
| KSUri.ParseProjectPathComplete | app/src/main/java/com/kickstarter/services/KSUri.java:91-113 | every path a project-family pattern spells out (project, updates, update, update comments, checkout thanks) is accepted by that pattern's recogniser, with exactly the captured pieces |
| KSUri.ParseProjectPathSound | app/src/main/java/com/kickstarter/services/KSUri.java:91-113 | every path the recogniser accepts is the pattern's spelling of valid captured pieces of that kind |
| KSUri.ProjectUriShape | app/src/main/java/com/kickstarter/services/KSUri.java:45-47 | a project URI is `/projects`, an optional creator, a project and an optional trailing `/`, every segment a non-empty slug; every such path on the endpoint's host is one |
| KSUri.CheckoutThanksUriShape | app/src/main/java/com/kickstarter/services/KSUri.java:57-59 | a checkout-thanks URI carries a non-empty all-digit id between `/checkouts/` and a final `/thanks`; every such path on the endpoint's host is one |
| DiscoveryUtils.PositionFromSort | app/src/main/java/com/kickstarter/libs/utils/DiscoveryUtils.java:25-43 | the position is in 0..4; a missing sort gives 0, and a present sort sits at its position in `Sort.values()` |
| DiscoveryUtils.SortFromPosition | app/src/main/java/com/kickstarter/libs/utils/DiscoveryUtils.java:48-50 | a sort exists exactly for positions 0 ≤ p < number of sorts; any other position fails |
| DiscoveryUtils.SortPositionRoundTrip | app/src/main/java/com/kickstarter/libs/utils/DiscoveryUtils.java:25-50 | the sort at a sort's position is that sort |
| DiscoveryUtils.PositionSortRoundTrip | app/src/main/java/com/kickstarter/libs/utils/DiscoveryUtils.java:25-50 | the position of the sort at a valid position is that position |
| DiscoveryUtils.OverlayShouldBeLight | app/src/main/java/com/kickstarter/libs/utils/DiscoveryUtils.java:64-66 | light for a missing category, otherwise as the category's own rule says |
| DiscoveryUtils.ProjectNeedsRootCategory | app/src/main/java/com/kickstarter/libs/utils/DiscoveryUtils.java:123-125 | the category is not a root, has no parent record, and the project is featured today |
| DiscoveryUtils.FillRootCategoryForFeaturedProjects | app/src/main/java/com/kickstarter/libs/utils/DiscoveryUtils.java:82-118 | fills in the root category of a featured first project; stated by the five lemmas below: `FillKeepsLaterProjects`, `FillLeavesListAloneUnlessNeeded`, `FillSetsFirstMatchingRoot`, `FillIsIdempotent` and `FillKeepsOverlay` |
| DiscoveryUtils.FirstWithId | app/src/main/java/com/kickstarter/libs/utils/DiscoveryUtils.java:108-111 | finds the first root with the id, or reports that none has it |
| DiscoveryUtils.FillKeepsLaterProjects | app/src/main/java/com/kickstarter/libs/utils/DiscoveryUtils.java:117 | a filled list has the input's length and the same project at every index from 1 |
| DiscoveryUtils.FillLeavesListAloneUnlessNeeded | app/src/main/java/com/kickstarter/libs/utils/DiscoveryUtils.java:86-105 | an empty list gives an empty list; a first project without a category or parent id, or that does not need its root, leaves the list unchanged |
| DiscoveryUtils.FillSetsFirstMatchingRoot | app/src/main/java/com/kickstarter/libs/utils/DiscoveryUtils.java:107-117 | when the root is needed, the call fails iff no root has the parent id; otherwise the first such root becomes the category's parent at index 0 |
| DiscoveryUtils.FillIsIdempotent | app/src/main/java/com/kickstarter/libs/utils/DiscoveryUtils.java:82-125 | filling an already filled list changes nothing, since the first project no longer needs its root |
| DiscoveryUtils.FillKeepsOverlay | app/src/main/java/com/kickstarter/libs/utils/DiscoveryUtils.java:64-66 | filling never changes any project's overlay lightness (light for a missing category), for any overlay rule over the category's id, parent id and root flag |
| KSCurrency.CurrencyOptionsFor | app/src/main/java/com/kickstarter/libs/KSCurrency.java:74-94 | converts iff USD is preferred, the user's country is US and the project has a static USD rate; when converting: country US, symbol `$`, code empty, value times rate; otherwise the project's country, currency, symbol and unconverted value |
| KSCurrency.ShowCurrencyCode | app/src/main/java/com/kickstarter/libs/KSCurrency.java:100-111 | never when excluded; otherwise iff the symbol needs a code and the user and the amount are not both in the US |
| KSCurrency.Format | app/src/main/java/com/kickstarter/libs/KSCurrency.java:54-68 | the five-argument `format`: what it hands to the formatter is stated by `KSCurrency.FormatPassesDecisions` |
| KSCurrency.FormatDefault | app/src/main/java/com/kickstarter/libs/KSCurrency.java:26-28 | the two-argument `format`; see `KSCurrency.ShortOverloadsKeepLocalAndRoundDown` |
| KSCurrency.FormatExcluding | app/src/main/java/com/kickstarter/libs/KSCurrency.java:38-42 | the three-argument `format`; see `KSCurrency.ShortOverloadsKeepLocalAndRoundDown` |
| KSCurrency.FormatPassesDecisions | app/src/main/java/com/kickstarter/libs/KSCurrency.java:54-68 | the formatter receives the requested rounding; the dollar amount with `$` and no code when converting; otherwise the project's amount and symbol, with its currency as code exactly when the code is shown |
| KSCurrency.ExcludedCodeIsEmpty | app/src/main/java/com/kickstarter/libs/KSCurrency.java:62 | excluding the code always passes an empty code |
| KSCurrency.ShownCodeIsProjectCurrency | app/src/main/java/com/kickstarter/libs/KSCurrency.java:57-65 | a non-empty code is only passed for an unconverted amount, and it is the project's currency |
| KSCurrency.ShortOverloadsKeepLocalAndRoundDown | app/src/main/java/com/kickstarter/libs/KSCurrency.java:26-42 | the two short overloads never convert, always round down and use the project's symbol; the two-argument one is the three-argument one without exclusion |

## Left out

- Lifecycle binding (`bindToLifecycle`), schedulers and threading are not modelled. Every input is processed to completion before the next one.
- Analytics (`koala.track*`) and the persistence inside `currentUser.login` are not modelled. The login is recorded as an output event.
- `Transformers.takeWhen`, `pipeApiErrorsTo` and `neverError` are not part of this model. They are modelled by their observable effect:
  - a click before the first snapshot (or email) is dropped;
  - an API error is routed to the error channel and ends that call without ending the pipeline.
- Only API errors are modelled as failures. A non-API failure (a network error, say) is not routed by `pipeApiErrorsTo` and is swallowed by `neverError`. In the source such a call ends with only `formSubmitting(false)` or `isFormSubmitting(false)` and no error message. No `ApiResult` value in the model produces that outcome before the cut-off.
- Signup.Utf16Length: Dafny's `string` holds Unicode scalar values, so a Java string with an unpaired surrogate, which `length()` counts as one unit, cannot be written. `Signup.IsValid` therefore covers only well-formed passwords.
- Signup.Step: the order of outputs within one input follows subscription order. The view's own subscribers are assumed to subscribe after construction.
- ResetPassword.SubmittingFlag: states "at most one false per call" rather than "exactly one", because a call superseded by a newer click never terminates. In RxJava 1, which the source uses, `doAfterTerminate` runs only on completion or error, not on unsubscription, so a superseded call emits no `isFormSubmitting(false)`, as in the model.
- `Uri.parse`, `getHost`, `getPath` and `getQueryParameter` are not modelled. A URI is its host, its path and its first query values, and the web endpoint is passed already parsed.
- A null host or path (a `NullPointerException` in `isKickstarterUri`) is not modelled.
- The `Secrets.RegExpPattern` patterns (Android Pay, API, Hivequeen, staging) are not part of this model. They are parameters.
- The character class `[a-zA-Z0-9-_]` is read as letters, digits, `-` and `_`, as java.util.regex parses it. `\d` is ASCII digits, and `.` excludes the five Java line terminators.
- Sort: the declaration of `DiscoveryParams.Sort` is not part of this model. The order is assumed to be HOME, POPULAR, NEWEST, ENDING_SOON, MOST_FUNDED, and to hold no other value, so `positionFromSort`'s `default` branch is unreachable.
- `Category.isRoot()`, `Category.overlayShouldBeLight()` and `Project.isFeaturedToday()` are not part of this model. `isRoot` and `isFeaturedToday` are fields of the records. Overlay lightness is a parameter, a rule over the category's id, parent id and root flag; it is assumed not to read the parent record.
- `ListUtils.replaced` and `ListUtils.empty` are modelled as sequence update and the empty sequence.
- The colour helpers `primaryColor`, `secondaryColor` and `overlayTextColor` are Android resource lookups and are not modelled.
- KSCurrency: float arithmetic is not modelled. The converted amount is kept symbolic, as the value and the rate.
- `NumberUtils.format` is not part of this model. `Format` returns the arguments it would be called with.
- KSCurrency: each `format` call is assumed to read one config. The source reads `currentConfig` twice (once for the options, once for the code decision).
