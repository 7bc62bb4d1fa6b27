# CTF landing site: consent, flag submission and mail dispatch

A Dafny model of the logic behind a Next.js landing site for a
Capture-The-Flag event. The site is mostly presentation. The model covers the
four places where it has behaviour:

- **The cookie-consent banner** (`CookiesConsent.Banner`). It is shown when
  no consent is stored. It records "accept all", "necessary only" or a custom
  choice from its preferences dialog in local storage, then hides itself.
- **The cookie settings panel** (`CookieSettings.SettingsPanel`). It shows
  the stored consent. Each category switch is stored at once. A reset
  removes the consent and its time stamp.
- **The submission handler** (`SubmitFlagsRoute.Post`) behind
  `POST /api/submit-flags`. It rejects a nameless submission with 400. If the
  SMTP settings are missing, it logs the submission and answers 500. Otherwise
  it verifies the SMTP connection and mails the rendered submission (200 with
  the message id). If verification or sending fails, it logs the submission
  and answers 500.
- **The submission form** (`SubmitFlagsForm.SubmitFlagsPage`). It has five
  fields and a submit button that is enabled once a name is entered. The form
  posts its fields unvalidated. It is cleared on success and kept on failure.

Both cookie components share one `Preferences.Store`, the browser's local
storage, as a map from keys to typed entries. The keys are `cookies-consent`
and `cookies-consent-date`. Their class invariant `Sound()` says that
necessary cookies are on, both in memory and in the stored record. A
constructor establishes it when the storage it is given is already sound
(no stored record, or one with necessary cookies on). Every handler keeps it,
so from such a storage it holds in every state reachable through the
handlers. It is not claimed for an arbitrary stored
value that is loaded on mount.

Some JavaScript semantics are written out in `JsValues`:

- string truthiness;
- the `a || b || fallback` chains used for defaults and header fallbacks;
- `parseInt` without a radix, following the steps of section 19.2.5 of
  ECMA-262: white space skipping, sign, a `0x` prefix, the longest digit
  prefix, and NaN as `None`. The result is an exact integer, not a double
  (see "## Left out").

The choice of implicit TLS reads the text of `SMTP_PORT`, while the port
reads its parsed number. So a value such as `" 465"` gives port 465 without
TLS (`SubmitFlagsRoute.SecureReadsTheText`).

Inputs that come from outside the code are parameters:

- whether the SMTP `verify` and `sendMail` calls succeed, and the message id
  the transport returns;
- the four clock readings put into the mail (local time and ISO time, once
  for the text body and once for the HTML body);
- the time stamp stored with a consent;
- the outcome of the form's `fetch` (ok, not ok, or thrown).

## Model

| member | source | states |
|---|---|---|
| `JsValues.FirstTruthy` | app/api/submit-flags/route.ts:85 | `c0 \|\| c1 \|\| … \|\| fallback` is the first non-empty candidate, and the fallback only when every candidate is empty |
| `JsValues.TrimStart` | app/api/submit-flags/route.ts:47 | parseInt's first step drops exactly the leading white space: what remains is a suffix that does not start with white space |
| `JsValues.DigitPrefix` | app/api/submit-flags/route.ts:47 | parseInt reads the longest prefix of digits of the radix, and stops at the first non-digit |
| `JsValues.ToDecimal` | app/api/submit-flags/route.ts:47 | the reference decimal rendering of a port number is non-empty, all digits, and has no leading zero |
| `JsValues.ParseIntDecimal` | app/api/submit-flags/route.ts:47 | `parseInt` of a decimal numeral is its value (round trip with `ToDecimal`) |
| `JsValues.ParseIntDecimalPrefix` | app/api/submit-flags/route.ts:47 | text after the digits is ignored unless it starts with a digit, or is an `x`/`X` after a lone `0` (a hex prefix); so `"25x"` reads as 25 |
| `JsValues.ParseIntNegative` | app/api/submit-flags/route.ts:47 | a leading minus negates the value |
| `JsValues.ParseIntSkipsWhiteSpace` | app/api/submit-flags/route.ts:47 | leading white space does not change the result |
| `JsValues.NoDigitsIsNaN` | app/api/submit-flags/route.ts:47 | a string without a single decimal digit parses to NaN |
| `Preferences.Flipped` | app/_components/CookiesConsent.tsx:72-75 | the record update negates exactly the named category and keeps the other three |
| `Preferences.FlippedTwice` | app/_components/CookiesConsent.tsx:72-75 | flipping the same category twice restores the original preferences |
| `Preferences.FlippedCommutes` | app/_components/CookieSettings.tsx:32-35 | switching two categories gives the same record in either order |
| `Preferences.Store.SetItem` | app/_components/CookiesConsent.tsx:43-44 | `setItem` replaces one key and leaves every other key as it was |
| `Preferences.Store.RemoveItem` | app/_components/CookieSettings.tsx:42-43 | `removeItem` drops one key; removing a missing key changes nothing |
| `CookiesConsent.Banner.constructor` | app/_components/CookiesConsent.tsx:14-21 | banner and dialog hidden; preferences are the defaults (necessary only); `Sound()` holds when the storage is sound |
| `CookiesConsent.Banner.Mount` | app/_components/CookiesConsent.tsx:23-33 | no stored consent: the banner is shown and the preferences are kept. A stored record: it becomes the preferences and the banner stays hidden. Storage unchanged; `Sound()` kept |
| `CookiesConsent.Banner.AcceptAll` | app/_components/CookiesConsent.tsx:35-47 | all four categories on, that record and the time stored under the two keys, nothing else in storage changed, banner and dialog hidden, `Sound()` established |
| `CookiesConsent.Banner.AcceptNecessary` | app/_components/CookiesConsent.tsx:49-61 | only necessary on, that record and the time stored, banner and dialog hidden, `Sound()` established |
| `CookiesConsent.Banner.SavePreferences` | app/_components/CookiesConsent.tsx:63-68 | the in-memory preferences, unchanged, are stored with the time; banner and dialog hidden |
| `CookiesConsent.Banner.HandlePreferenceChange` | app/_components/CookiesConsent.tsx:70-76 | `necessary` is refused (no change); any other category is flipped alone; nothing is stored; `Sound()` kept |
| `CookiesConsent.Banner.ToggleCustomize` | app/_components/CookiesConsent.tsx:104 | "Customize" opens or closes the preferences dialog |
| `CookiesConsent.Banner.ClosePreferences` | app/_components/CookiesConsent.tsx:219 | close and cancel hide the dialog |
| `CookiesConsent.Banner.Dispatch` | app/_components/CookiesConsent.tsx:78-127 | with the banner hidden no click changes anything; dialog controls do nothing while it is closed. On a shown banner each click has its handler's full effect: Customize toggles the dialog; Necessary Only and Accept All store their record and the time and hide both; close hides the dialog; a switch flips its category (not `necessary`) in memory only; save stores the current preferences and the time and hides both. Storage changes only through a choice that hides the banner; `Sound()` kept |
| `CookieSettings.SettingsPanel.constructor` | app/_components/CookieSettings.tsx:12-20 | default preferences, settings hidden, no consent |
| `CookieSettings.SettingsPanel.Mount` | app/_components/CookieSettings.tsx:22-28 | consent is marked given exactly when a record is stored, and the preferences then equal it; otherwise nothing changes |
| `CookieSettings.SettingsPanel.HandlePreferenceChange` | app/_components/CookieSettings.tsx:30-39 | `necessary` changes neither memory nor storage; any other category flips alone, and the stored consent then equals the new preferences (time stored too) |
| `CookieSettings.SettingsPanel.ClearAllCookies` | app/_components/CookieSettings.tsx:41-50 | both keys removed and nothing else, consent forgotten, preferences reset to necessary-only, `Sound()` established |
| `CookieSettings.SettingsPanel.ToggleShowSettings` | app/_components/CookieSettings.tsx:70 | shows or hides the category switches |
| `CookieSettings.SettingsPanel.Dispatch` | app/_components/CookieSettings.tsx:55-63 | without consent only the notice is rendered and no click changes anything; switches do nothing while hidden. With consent: Show Settings toggles the switches; a shown switch refuses `necessary` and otherwise flips its category and stores the record and the time at once; Reset removes both keys, forgets the consent and restores the defaults. `Sound()` kept |
| `CookieSettings.ResetAndReload` | app/_components/CookieSettings.tsx:51-52 | after a reset, the banner remounted on the same storage is shown with default preferences |
| `SubmitFlagsRoute.Post` | app/api/submit-flags/route.ts:13-204 | status 200, 400 or 500. 400 exactly for a parsed body with an empty name, with nothing logged or created. 200 exactly when name, settings, verify and send all succeed, with the message id. Every 500 logs the body (the empty default when parsing failed). A transport exactly when a named body meets complete settings; a mail exactly when that connection is verified, handed over even if the send then fails |
| `SubmitFlagsRoute.NameCheckedFirst` | app/api/submit-flags/route.ts:25-30 | for a nameless submission the response does not depend on the environment, headers, clock or transport |
| `SubmitFlagsRoute.ConfigCheckedBeforeTransport` | app/api/submit-flags/route.ts:33-42 | named submission with incomplete SMTP settings: 500 "not configured" and the body logged, whatever the transport would do |
| `SubmitFlagsRoute.MalformedBodyLogsDefault` | app/api/submit-flags/route.ts:191-202 | a body that is not JSON gives 500 and logs the all-empty default submission |
| `SubmitFlagsRoute.NeverLost` | app/api/submit-flags/route.ts:178-202 | a named submission is either mailed (200) or logged (500) |
| `SubmitFlagsRoute.RenderFlagShowsValue` | app/api/submit-flags/route.ts:78-81 | a flag shows its value when non-empty and "Not submitted" otherwise (in both mail bodies), on a green or red background |
| `SubmitFlagsRoute.MailRendersFlags` | app/api/submit-flags/route.ts:115-141 | the mail lists the four flags in order, each rendered that way under its challenge title |
| `SubmitFlagsRoute.MailHeader` | app/api/submit-flags/route.ts:160-168 | sender address is SMTP_USER, the subject ends with the participant's name, and the text and HTML bodies each carry their own local-time and ISO-time readings |
| `SubmitFlagsRoute.IpAddressFallback` | app/api/submit-flags/route.ts:85 | IP is x-forwarded-for, else x-real-ip, else "Unknown" |
| `SubmitFlagsRoute.UserAgentFallback` | app/api/submit-flags/route.ts:86 | user agent is its header, else "Unknown" |
| `SubmitFlagsRoute.RecipientFallback` | app/api/submit-flags/route.ts:165 | recipient is SUBMISSION_EMAIL, else contact@secforit.ro |
| `SubmitFlagsRoute.PortDefault` | app/api/submit-flags/route.ts:47 | without SMTP_PORT the port is 587 and TLS is off |
| `SubmitFlagsRoute.PortDecimal` | app/api/submit-flags/route.ts:47 | a decimal SMTP_PORT gives that port |
| `SubmitFlagsRoute.PortNotANumber` | app/api/submit-flags/route.ts:47 | a set SMTP_PORT without a single decimal digit gives a NaN port |
| `SubmitFlagsRoute.SecureOnlyOn465` | app/api/submit-flags/route.ts:48 | `secure` holds iff SMTP_PORT is exactly "465", and then the port is 465 |
| `SubmitFlagsRoute.SecureReadsTheText` | app/api/submit-flags/route.ts:47-48 | SMTP_PORT `" 465"` gives port 465 with `secure` off |
| `SubmitFlagsForm.FormData.With` | app/_components/SubmitFlags.tsx:27-30 | the named field takes the new value; the other four are unchanged |
| `SubmitFlagsForm.WithSameValue` | app/_components/SubmitFlags.tsx:25-31 | typing a field's current value changes nothing |
| `SubmitFlagsForm.WithOverwrites` | app/_components/SubmitFlags.tsx:25-31 | only the last value typed into a field counts |
| `SubmitFlagsForm.SubmitFlagsPage.constructor` | app/_components/SubmitFlags.tsx:15-23 | empty form, not submitting, status idle |
| `SubmitFlagsForm.SubmitFlagsPage.HandleInputChange` | app/_components/SubmitFlags.tsx:25-31 | the form becomes the old form with that one field replaced |
| `SubmitFlagsForm.SubmitFlagsPage.StartSubmit` | app/_components/SubmitFlags.tsx:33-45 | submitting and status idle, the button disabled, the request body exactly the current form |
| `SubmitFlagsForm.SubmitFlagsPage.FinishSubmit` | app/_components/SubmitFlags.tsx:47-64 | ok: status success and all five fields cleared. Not ok or thrown: status error and the form unchanged. Never submitting afterwards |
| `SubmitFlagsForm.SubmitFlagsPage.HandleSubmit` | app/_components/SubmitFlags.tsx:33-65 | the whole handler: the body sent is the form before the call. After success the button is disabled (name cleared). After a failure it is enabled iff a name is present |
| `SubmitFlagsForm.SubmitFlagsPage.SubmitToServer` | app/_components/SubmitFlags.tsx:188 | a disabled button sends nothing and changes nothing. An enabled one posts the form as it was, never gets a 400 and ends not submitting; it reports success iff the server mailed the flags, and then the form is cleared and the button disabled; otherwise it reports an error and keeps the form, which the server has logged |
| `SubmitFlagsForm.ClientSuccessIffDelivered` | app/_components/SubmitFlags.tsx:47-58 | for a named form, `response.ok` holds iff settings, verify and send all succeed; otherwise the server logged exactly the form's fields |

## Left out

- JSON encoding: `JSON.stringify` and `JSON.parse` of the stored consent and of the request body are not modelled. Stored values are typed entries. A request body is either parsed into the five fields or malformed.
- Unusual bodies and stored values:
  - A JSON body that is not an object (`null`, a number) is not modelled; a field missing from the body reads as the empty string. The handler treats the two alike. They differ only in the text of the log line.
  - A non-record value under `cookies-consent` is treated as a failed parse that changes nothing, or as no consent when it is empty. The error a real parse failure raises in the effect is not modelled.
- Timing: the one-second delay before the banner appears is not modelled (the banner is shown at once). Neither is the page reload after a reset, beyond the `ResetAndReload` remount. The clock readings are parameters.
- Concurrency: React's batching of state updates, edits made while a submission is in flight, and storage races between tabs are not modelled.
- The mail transport (`createTransport`, `verify`, `sendMail`, `getTestMessageUrl`) is external; its outcomes are parameters. The fixed TLS options, the priority headers, and the literal template text and markup around the interpolated values are not modelled.
- Console output: only the submission that is logged for manual recovery is modelled (`Response.logged`). The diagnostic lines are not.
- `JsValues.ParseInt` gives an exact integer where JavaScript gives a double: `"-0"` reads as 0 rather than -0, and numerals beyond 2^53 are not rounded. Neither matters for a port number, but the result is not the IEEE-754 value section 19.2.5 of ECMA-262 prescribes.
- `JsValues.IsJsWhiteSpace` covers the code points ECMA-262 lists plus the `Zs` space separators; it does not follow future Unicode versions.
- Rendering and static content: JSX markup, styling, the static pages and the constant tables have no behaviour to model. So do the dashboard (session and network plumbing) and the CSRF token route (random bytes and the clock).
- Sanitisation, flag-prefix validation and a client-side rate limit: none exists in this code. The form posts its fields unvalidated, and the model does the same.
