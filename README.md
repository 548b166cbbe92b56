# Infinitum portal front end: page controllers and link/template logic

This project models the parts of the Infinitum festival portal's Next.js
front end that make decisions, and proves what they promise:

- the Google OAuth callback page (`CallbackComponent`): the four-way choice
  between an error, an email/password conflict with a delayed redirect to the
  login page, a Google login followed by the profile page, and handing a new
  user to registration completion;
- the payment redirect page (`payment/page.js`): the verification call, its
  success / decline / thrown outcomes, the refresh button, the route behind
  "Proceed" and the loading / failure / success views;
- the reset-password and forgot-password forms: the ordered password checks,
  the submit states, and when the remembered address is stored or removed;
- the site `Link`: how a click is classified (same page, external URL, new
  window, internal), the delay, the navigation method, the active class, and
  the single module-wide slot for the pending navigation timer;
- the JSS class-name generator: prefix sanitisation and the counter that
  makes every id unique;
- the client template: the entry overlay's three one-way flags, its two
  delays, and which pages are wrapped in the `App` frame.

Each page component is a class whose fields are its React state hooks, plus
an `effects` sequence that records, in order, what the component asks of the
browser (router pushes, `localStorage` writes and removals, timers, service
calls, window events) instead of performing it. Service calls are inputs:
the methods that continue after an `await` take the settlement of the call
as a parameter. An async handler is split in two methods, the part before the
`await` (`BeginVerify`, `BeginSubmit`) and the part after it
(`CompleteVerify`, `CompleteSubmit`), because the page renders in between
(the refresh button is disabled, the submit button reads "Resetting...").
JavaScript values that the server or the props supply are modelled by
`Js.Value` and `Js.Option` with JavaScript truthiness, so that `a || "fallback"`,
`!email` and `eventId === '-1' || !eventId` keep their exact meaning.

The model follows the code to the letter where a looser reading would
differ: an EMPTY `email` or `googleId` is rejected like a missing one
(`!email`); any `source` other than exactly "email" (absent included) takes
the Google-login path; and a payment refresh has no "most recent call wins"
ordering (see "Left out").

The proofs worth noting: the id generator never hands out the same id twice,
whatever the prefixes and rule keys (the counter is recovered from the text
after the last `_`, and decimal printing is proved injective by a round trip);
sanitising is idempotent; at most one link navigation is ever pending, and it
is the latest one; the template's flags only move one way under any order of
events, and the site is never revealed before Enter is pressed.

## Model

| member | source | states |
|---|---|---|
| `Callback.Classify` | next-app/src/app/auth/components/CallbackComponent.js:18-45 | invalid exactly when email or googleId is missing or empty; email conflict exactly when both are present, `existing_user` is exactly "true" and `source` is exactly "email"; Google login when existing with any other source; new user when `existing_user` is not exactly "true" |
| `Callback.CallbackPage.constructor` | next-app/src/app/auth/components/CallbackComponent.js:12-13 | no error, loading, nothing done yet |
| `Callback.CallbackPage.View` | next-app/src/app/auth/components/CallbackComponent.js:56-108 | the error screen (with the error text) exactly when the error is non-empty, which on a valid page is exactly when loading has stopped; otherwise the processing screen |
| `Callback.CallbackPage.HandleCallback` | next-app/src/app/auth/components/CallbackComponent.js:15-54 | invalid: "Invalid callback parameters", loading false, no effect; conflict: the conflict message, loading false, exactly one push to /auth?type=login after 10000 ms and no login call; existing Google user: `googleLogin` with existing_user true, then /portal/profile only if it resolves, else the server message or "Authentication failed" and loading false; new user: the two registration keys stored, then /auth?type=complete-registration&source=google, no login call; keeps loading ⇔ no error |
| `Callback.InvalidCallbackNeverNavigates` | next-app/src/app/auth/components/CallbackComponent.js:23-27 | on a fresh page, missing parameters issue no navigation, storage write or login and show the error screen with "Invalid callback parameters" |
| `Payment.Settle` | next-app/src/app/payment/page.js:35-58 | success exactly when the call resolved with a truthy `success`, carrying the returned `eventId`; otherwise failure with the server's message or "Failed to verify payment", never empty |
| `Payment.DeclinedAndThrownAgree` | next-app/src/app/payment/page.js:45-58 | a declined response and a thrown error with the same message settle identically |
| `Payment.ProceedRoute` | next-app/src/app/payment/page.js:77-83 | /events?category=events exactly when the id is the string "-1" or falsy; otherwise /events?id= followed by the id's text |
| `Payment.ProceedRouteNamesEvent` | next-app/src/app/payment/page.js:77-83 | the route for a concrete string id carries that id back; the listing route carries none |
| `Payment.NumericMinusOneIsAnEventId` | next-app/src/app/payment/page.js:78 | the comparison is strict: a numeric -1 goes to /events?id=-1 |
| `Payment.PaymentPage.constructor` | next-app/src/app/payment/page.js:11-18 | loading, no success, null event id, null error, no animation, not refreshing |
| `Payment.PaymentPage.View` | next-app/src/app/payment/page.js:85-199 | loading view exactly while loading; success view exactly when not loading and successful; otherwise the failure view with the error or the default text; refresh disabled exactly while refreshing; on a valid page the failure view always shows the page's own error |
| `Payment.PaymentPage.BeginVerify` | next-app/src/app/payment/page.js:20-34 | calls the service exactly when a code is present; without one: "No payment code provided", loading false, refreshing unchanged, no call; with one: a refresh sets refreshing and hides the animation, success, error and event id untouched |
| `Payment.PaymentPage.CompleteVerify` | next-app/src/app/payment/page.js:35-62 | loading and refreshing both end false; success sets success, the returned id and a null error; any failure clears success, keeps the event id and sets the failure message; the view is the success or the failure view accordingly |
| `Payment.PaymentPage.Mount` | next-app/src/app/payment/page.js:65-67 | the first verification runs without the refresh flag; without a code it calls nothing, sets "No payment code provided", ends loading and schedules the animation |
| `Payment.PaymentPage.HandleRefreshStatus` | next-app/src/app/payment/page.js:69-75 | a refresh marks itself and keeps the displayed result until the new one arrives; without a code it calls nothing, sets "No payment code provided", ends loading and leaves the refresh and animation flags as they were |
| `Payment.PaymentPage.AnimationTimerFires` | next-app/src/app/payment/page.js:24-26 | the 100 ms timer turns the result animation on |
| `Payment.PaymentPage.HandleProceed` | next-app/src/app/payment/page.js:77-83 | pushes the route `ProceedRoute` gives for the current event id |
| `Payment.VerifiedThenProceed` | next-app/src/app/payment/page.js:38-83 | an answer `{success: true, eventId: "42"}` shows the success view and Proceed goes to /events?id=42 |
| `Payment.RefreshAfterFailure` | next-app/src/app/payment/page.js:52-75 | after a thrown error, a refresh that succeeds ends on the success view |
| `ResetPassword.Validate` | next-app/src/app/auth/components/ResetPasswordComponent.js:37-45 | accepted exactly when the passwords match and have at least 6 characters; a mismatch is reported first, then "Password must be at least 6 characters" |
| `ResetPassword.ResetPasswordPage.constructor` | next-app/src/app/auth/components/ResetPasswordComponent.js:11-18 | empty fields, not loading, no error, no success |
| `ResetPassword.ResetPasswordPage.View` | next-app/src/app/auth/components/ResetPasswordComponent.js:61-149 | success view exactly on success; otherwise the form with the error banner exactly when an error is set, the remembered email, and submit disabled exactly when loading or the token is missing |
| `ResetPassword.ResetPasswordPage.Mount` | next-app/src/app/auth/components/ResetPasswordComponent.js:20-31 | a stored non-empty `reset_password_email` becomes the email; a missing token sets "Invalid or missing reset token" |
| `ResetPassword.ResetPasswordPage.SetPassword` | next-app/src/app/auth/components/ResetPasswordComponent.js:126 | the input's value becomes the password |
| `ResetPassword.ResetPasswordPage.SetConfirmPassword` | next-app/src/app/auth/components/ResetPasswordComponent.js:141 | the input's value becomes the confirmation |
| `ResetPassword.ResetPasswordPage.BeginSubmit` | next-app/src/app/auth/components/ResetPasswordComponent.js:33-50 | clears the error; a failed check sets its message with loading unchanged and no call; otherwise loading and one reset call with the token and the password, which then match and have at least 6 characters |
| `ResetPassword.ResetPasswordPage.CompleteSubmit` | next-app/src/app/auth/components/ResetPasswordComponent.js:49-58 | only a success removes `reset_password_email` and sets success; a failure sets the server message or "Failed to reset password" and removes nothing; loading ends false |
| `ForgotPassword.ForgotPasswordPage.constructor` | next-app/src/app/auth/components/ForgotPasswordComponent.js:10-13 | empty email, not loading, no error, no success |
| `ForgotPassword.ForgotPasswordPage.View` | next-app/src/app/auth/components/ForgotPasswordComponent.js:32-92 | "Check Email" with the address exactly on success; otherwise the form with the error banner exactly when an error is set and submit disabled exactly while loading |
| `ForgotPassword.ForgotPasswordPage.SetEmail` | next-app/src/app/auth/components/ForgotPasswordComponent.js:81 | the input's value becomes the email |
| `ForgotPassword.ForgotPasswordPage.BeginSubmit` | next-app/src/app/auth/components/ForgotPasswordComponent.js:15-23 | clears the error, starts loading, stores the email under `reset_password_email`, and only then calls the service |
| `ForgotPassword.ForgotPasswordPage.CompleteSubmit` | next-app/src/app/auth/components/ForgotPasswordComponent.js:23-29 | success only when the call resolves; otherwise the server message or "Failed to send reset email" with success unchanged; loading ends false |
| `ForgotPassword.FailedRequestKeepsAddress` | next-app/src/app/auth/components/ForgotPasswordComponent.js:15-29 | a failed request still leaves the address stored and shows the form with the error and an enabled button |
| `Link.IsExternalURL` | next-app/src/components/Link/Link.js:43 | the pattern `^https?://` holds exactly when the URL starts with "http://" or "https://", case-sensitively |
| `Link.Describe` | next-app/src/components/Link/Link.js:42-50 | same page exactly when pathname equals href; out exactly when target is truthy; internal exactly when neither |
| `Link.ExternalLinkReportedInternal` | next-app/src/components/Link/Link.js:42-50 | an http(s) link without a target to another page is flagged both external and internal (the flag passed on is `!isOut && !isSame`; the `isInternal` computed from `isExternalURL` on line 46 is unused), and leaves through location.href |
| `Link.NavigationDelay` | next-app/src/components/Link/Link.js:62 | `delay` when it is truthy, otherwise the theme's animation time |
| `Link.TriggerEffects` | next-app/src/components/Link/Link.js:31-56 | an empty href only runs onClick; otherwise the click sound first and the route-change-start event last, onClick exactly when given, onLinkStart with the link flags exactly when given, onClick before onLinkStart, each of the four at most once; nothing navigates at once |
| `Link.Schedule` | next-app/src/components/Link/Link.js:58-65 | no navigation exactly for an empty href or the current page; otherwise one with the link's flags, onLinkEnd and the chosen delay |
| `Link.NavigationStep` | next-app/src/components/Link/Link.js:68-74 | a target opens a window; else an external URL sets location.href; else the router pushes |
| `Link.FireEffects` | next-app/src/components/Link/Link.js:65-80 | exactly one navigation, first; onLinkEnd exactly when given; route-change-end last; nothing else |
| `Link.ClassName` | next-app/src/components/Link/Link.js:83-88 | the active class (the prop, or "link-active" when it is absent) is appended exactly when pathname equals href and it is non-empty |
| `Link.LinkRuntime.constructor` | next-app/src/components/Link/Link.js:8 | the slot starts null with no timer pending |
| `Link.LinkRuntime.PendingCount` | next-app/src/components/Link/Link.js:64-65 | at most one link navigation is pending, the one the slot names |
| `Link.LinkRuntime.Trigger` | next-app/src/components/Link/Link.js:31-81 | records the click's effects; a scheduling click clears the pending timer and leaves its own as the only one; an empty href or a same-page click leaves the pending one alone |
| `Link.LinkRuntime.Fire` | next-app/src/components/Link/Link.js:65-80 | the pending navigation runs and nothing stays pending |
| `Link.SecondClickWins` | next-app/src/components/Link/Link.js:64-65 | after two quick clicks exactly one navigation is pending, and it is the second link's: the first one's timer was cleared |
| `JssRegistry.Sanitize` | next-app/src/components/ThemeRegistry/JssRegistry.js:15 | same length, only [A-Za-z0-9_-] characters, allowed characters kept in place, every other one replaced by '_' |
| `JssRegistry.SanitizeKeepsAllowed` | next-app/src/components/ThemeRegistry/JssRegistry.js:15 | a prefix of allowed characters is unchanged |
| `JssRegistry.SanitizeIdempotent` | next-app/src/components/ThemeRegistry/JssRegistry.js:15 | sanitising a sanitised prefix changes nothing |
| `JssRegistry.ClassPrefix` | next-app/src/components/ThemeRegistry/JssRegistry.js:14-15 | "jss" when the sheet's prefix is missing or empty, else the sanitised prefix |
| `JssRegistry.IdCarriesCounter` | next-app/src/components/ThemeRegistry/JssRegistry.js:16 | the counter can be read back from the text after an id's last '_', whatever the prefix and rule key |
| `JssRegistry.DistinctCountersDistinctIds` | next-app/src/components/ThemeRegistry/JssRegistry.js:16 | ids made with different counters differ |
| `JssRegistry.NumberedDistinct` | next-app/src/components/ThemeRegistry/JssRegistry.js:9-17 | ids numbered 1, 2, 3, ... are pairwise distinct |
| `Js.DecimalRoundTrip` | next-app/src/components/ThemeRegistry/JssRegistry.js:16 | the decimal text of a counter reads back as that counter |
| `JssRegistry.IdGenerator.constructor` | next-app/src/components/ThemeRegistry/JssRegistry.js:9-10 | the counter starts at 0, nothing issued |
| `JssRegistry.IdGenerator.GenerateId` | next-app/src/components/ThemeRegistry/JssRegistry.js:11-17 | the counter is incremented before use (first id uses 1); the id is prefix_key_counter; it differs from every id issued before, so all issued ids are distinct |
| `ClientTemplate.FindPrefix` | next-app/src/components/ClientTemplate/ClientTemplate.js:48-50 | nothing found exactly when no prefix starts the pathname; a found prefix is in the list, starts the pathname and is the first one that does |
| `ClientTemplate.IsURLContent` | next-app/src/components/ClientTemplate/ClientTemplate.js:48-61 | wrapped in App exactly when the pathname starts with "/news", "/music", "/charity" or "/about" |
| `ClientTemplate.PrefixNotSegment` | next-app/src/components/ClientTemplate/ClientTemplate.js:48-50 | "/newsletter" matches, "/new" does not: a string prefix test, not a path-segment test |
| `ClientTemplate.EnterShowDelay` | next-app/src/components/ClientTemplate/ClientTemplate.js:30-33 | the theme's animation time when truthy, else 250 |
| `ClientTemplate.ShowDelay` | next-app/src/components/ClientTemplate/ClientTemplate.js:42-45 | (time or 250) + (stagger or 50); 300 with neither |
| `ClientTemplate.Step` | next-app/src/components/ClientTemplate/ClientTemplate.js:22-46 | Enter hides the popup and adds a reveal timer; the mount timer sets enterShow; a reveal timer sets show; nothing else changes enterAnimationShow |
| `ClientTemplate.ReplayOnlyAdvances` | next-app/src/components/ClientTemplate/ClientTemplate.js:22-46 | under any sequence of events show and enterShow only go from false to true, enterAnimationShow only from true to false |
| `ClientTemplate.ShownOnlyAfterEnter` | next-app/src/components/ClientTemplate/ClientTemplate.js:37-46 | the site is never shown, nor a reveal pending, unless Enter was pressed |
| `ClientTemplate.Template.constructor` | next-app/src/components/ClientTemplate/ClientTemplate.js:22-35 | show false, enterShow false, enterAnimationShow true; the popup timer is set for the enter delay |
| `ClientTemplate.Template.View` | next-app/src/components/ClientTemplate/ClientTemplate.js:55-80 | overlay exactly while show is false; popup exactly while show is false and enterShow true; content wrapped exactly for content paths |
| `ClientTemplate.Template.OnEnterTimer` | next-app/src/components/ClientTemplate/ClientTemplate.js:30-31 | the popup appears |
| `ClientTemplate.Template.OnEnter` | next-app/src/components/ClientTemplate/ClientTemplate.js:37-46 | enterAnimationShow goes false first, then a reveal is scheduled after time + stagger |
| `ClientTemplate.Template.OnShowTimer` | next-app/src/components/ClientTemplate/ClientTemplate.js:42-44 | show becomes true |
| `ClientTemplate.Template.Unmount` | next-app/src/components/ClientTemplate/ClientTemplate.js:34 | the popup timer is cleared |
| `ClientTemplate.EntrySequence` | next-app/src/components/ClientTemplate/ClientTemplate.js:22-77 | mount shows the overlay without popup, the timer shows the popup, Enter then the reveal remove both |

## Left out

- Rendering (JSX markup, CSS classes, icons and animations), sound playback other than recording the click sound, Umami analytics and `console.error`: presentation only.
- The real router, `localStorage`, `setTimeout`, `window.open`, `location.href` and window events: recorded as effects, not performed; the model does not execute timers on its own clock.
- `authService`, `googleLogin` and `paymentService`: external calls whose settlement is a parameter. An exception thrown by `localStorage` or the router inside a handler's `try` is not modelled: in the callback page; in `ForgotPassword.ForgotPasswordPage.BeginSubmit`, where a throwing `setItem` would show "Failed to send reset email" and skip the service call; and in `ResetPassword.ResetPasswordPage.CompleteSubmit`, where a throwing `removeItem` after a successful reset would show "Failed to reset password" instead of the success view.
- Overlapping payment verifications (a slower, older call settling after a newer refresh and overwriting its result): a race the code does not order, so there is nothing to prove about it.
- Server-side rendering (`typeof window === 'undefined'`): the model runs in the browser.
- JavaScript numbers: modelled as integers; fractions, NaN, infinities and the 2^53 limit of the JSS counter are not modelled.
- Strings: Dafny characters are Unicode scalar values, while JavaScript's `length` and the sanitising regex work on UTF-16 code units. A character outside the Basic Multilingual Plane counts as 2 in `password.length` and becomes two '_' in a JSS prefix; the model counts and replaces it once.
- The browser's own form validation (`required`, `minLength={6}` on the password inputs): not part of the submit handler, so not modelled.
- A change of `searchParams` or `theme` after mount (which re-runs an effect): the model mounts once with fixed parameters.
- FlagshipEvent, the comet card, the style objects, the theme data (only its animation time 250 and stagger 50 are used), `withStyles`, the theme providers and `Layout`: pure presentation with no decision logic.
