# Admin console: session gate and settings holder

A Dafny model of the behaviour behind a single-page admin console. The rest of
the console is markup. Two pieces are modelled.

- **The session gate** is the index page with its login form. The page keeps
  `isAuthenticated` and `authToken`, and the browser's localStorage is a
  `map<string, string>`. At startup a non-empty `admin_token` entry restores the
  session without any check of the token. The login handler compares the
  credentials with one fixed pair (`_superuser` / `admin123`). On a match it
  mints `mock_superuser_token_<Date.now()>`, stores it under `admin_token` and
  hands it to the page. Logout removes that entry and clears the page state.
  The form's `isLoading` flag is false again after every attempt. This is the
  class `IndexPage.Gate`. The credential literals and token minting are in
  module `AdminAuth`.
- **The settings holder** belongs to the dashboard. It holds the record
  `{enabled, rateLimit, blockDuration}`, starting at `{true, 1000, 300}`, and
  the storage API token string. Each edit copies the record with one field
  replaced. Numeric fields store whatever `parseInt` returns for the input,
  NaN included. Saving raises a notice and changes nothing. The pure updates are
  functions in module `AdminDashboard`. The class `AdminDashboard.Dashboard`
  commits them.

`parseInt` with radix 10 is modelled in module `JsNumbers`, following section
19.2.5 of ECMA-262. So is Number-to-string conversion for integers, following
section 6.1.6.1.20. The token needs it for the timestamp, and the numeric
inputs need it for the value they display. Toasts are recorded as events
appended to a `notices` log (module `Toasts`).

The settings fields may become negative: input such as `-5` stores -5.
Input without digits stores NaN, and the prior value is not kept.

`Date.now()` is the parameter `now: nat` of `HandleLogin`. It is bounded by
8.64 * 10^15, the largest time value JavaScript allows (section 21.4.1.1 of
ECMA-262). The email and
password are parameters of `HandleLogin`: they are the form's current field
values when it is submitted.

## Model

| member | source | states |
|---|---|---|
| IndexPage.Gate.constructor | src/pages/Index.tsx:6-7 | the page starts unauthenticated with no token, and the invariant isAuthenticated <==> token present holds |
| IndexPage.Gate.Restore | src/pages/Index.tsx:9-15 | a present, non-empty `admin_token` authenticates with exactly that token; a missing or empty one changes nothing; afterwards memory agrees with storage |
| IndexPage.StoredSession | src/pages/Index.tsx:10-11 | the restored session is Some exactly when the key is present with a non-empty value, and it is that value |
| IndexPage.GetItem | src/pages/Index.tsx:10 | getItem yields the stored value exactly when the key is present, and null otherwise |
| IndexPage.Gate.HandleAuth | src/pages/Index.tsx:17-20 | the page adopts the given token and is authenticated |
| IndexPage.Gate.HandleLogout | src/pages/Index.tsx:22-26 | `admin_token` is removed, every other storage entry is unchanged, the page is unauthenticated with no token, memory agrees with storage |
| IndexPage.LogoutThenRestore | src/pages/Index.tsx:23 | after logout a reload restores no session |
| IndexPage.Gate.View | src/pages/Index.tsx:28-32 | the login form is shown exactly when unauthenticated, that is exactly when no token is held |
| AdminAuth.CredentialsMatch | src/components/AdminAuth.tsx:25 | the check accepts exactly the login `_superuser` with the password `admin123` |
| IndexPage.Gate.HandleLogin | src/components/AdminAuth.tsx:19-45 | login succeeds iff both literals match; on success the minted token is stored under `admin_token` and adopted by the page, with a success notice; on failure storage and session are unchanged and the same failure notice is raised whichever field was wrong; `isLoading` is false afterwards; the invariant is kept |
| AdminAuth.MintToken | src/components/AdminAuth.tsx:26 | for any timestamp JavaScript can produce, the token is non-empty, starts with `mock_superuser_token_`, and the rest parses back to the timestamp |
| AdminAuth.MintTokenInjective | src/components/AdminAuth.tsx:26 | logins at different instants mint different tokens |
| IndexPage.LoginThenRestore | src/components/AdminAuth.tsx:26-27 | a store written by a successful login restores that same token on reload |
| JsNumbers.ParseInt | src/components/AdminDashboard.tsx:327 | the result is NaN iff no digit follows the optional sign; without a minus sign the value is non-negative |
| JsNumbers.DigitPrefixLength | src/components/AdminDashboard.tsx:327 | parseInt reads the longest prefix of digits: all digits, followed by a non-digit or the end |
| JsNumbers.ParseIntStopsAtNonDigit | src/components/AdminDashboard.tsx:327 | a digit run followed by anything not starting with a digit parses to the digit run's value |
| JsNumbers.ParseIntSignedStopsAtNonDigit | src/components/AdminDashboard.tsx:327 | a sign, a digit run, then anything not starting with a digit parses to the run's value, negated for `-` (`"-5.5"` gives -5, `"+7"` gives 7) |
| JsNumbers.ParseIntAfterSign | src/components/AdminDashboard.tsx:327 | a sign before input that starts with a digit negates its value for `-` and keeps it for `+` |
| JsNumbers.NumberToString | src/components/AdminAuth.tsx:26 | the string form of NaN is "NaN"; that of a non-negative integer is all digits without a leading zero; that of a negative one is "-" followed by such digits |
| JsNumbers.ParseIntOfNumberToString | src/components/AdminDashboard.tsx:326-327 | parsing the string form of NaN, or of an integer below 10^21 in magnitude, gives it back |
| JsNumbers.NatToDigits | src/components/AdminAuth.tsx:26 | the decimal form of a timestamp is non-empty, all digits, and has no leading zero |
| JsNumbers.DigitsValueOfNatToDigits | src/components/AdminAuth.tsx:26 | the digits of a number's decimal form evaluate back to that number |
| AdminDashboard.Dashboard.constructor | src/components/AdminDashboard.tsx:20-25 | settings start as enabled, rate limit 1000, block duration 300, with an empty API token |
| AdminDashboard.WithEnabled | src/components/AdminDashboard.tsx:318 | the switch sets `enabled` to the checked value; the two numeric fields are unchanged |
| AdminDashboard.WithRateLimit | src/components/AdminDashboard.tsx:327 | `rateLimit` becomes parseInt of the input, which is NaN iff no digits follow the sign; the other fields are unchanged |
| AdminDashboard.WithBlockDuration | src/components/AdminDashboard.tsx:337 | `blockDuration` becomes parseInt of the input, which is NaN iff no digits follow the sign; the other fields are unchanged |
| AdminDashboard.RateLimitExample | src/components/AdminDashboard.tsx:327 | typing "500" into the initial settings gives `{true, 500, 300}` |
| AdminDashboard.NumericEditsOverwrite | src/components/AdminDashboard.tsx:327 | the last edit alone decides a numeric field; input without digits stores NaN instead of keeping the prior value |
| AdminDashboard.EditsOfDifferentFieldsCommute | src/components/AdminDashboard.tsx:318-337 | edits of different fields commute |
| AdminDashboard.EditingShownValueIsNoChange | src/components/AdminDashboard.tsx:326-327 | re-entering the value a numeric field displays leaves the settings unchanged, for values below 10^21 in magnitude |
| AdminDashboard.Dashboard.ToggleEnabled | src/components/AdminDashboard.tsx:318 | the record becomes the toggled copy; token and notices unchanged |
| AdminDashboard.Dashboard.EditRateLimit | src/components/AdminDashboard.tsx:327 | the record becomes the rate-limit copy; token and notices unchanged |
| AdminDashboard.Dashboard.EditBlockDuration | src/components/AdminDashboard.tsx:337 | the record becomes the block-duration copy; token and notices unchanged |
| AdminDashboard.Dashboard.EditS3Token | src/components/AdminDashboard.tsx:254 | the API token becomes the typed value; the settings are untouched |
| AdminDashboard.Dashboard.SaveSettings | src/components/AdminDashboard.tsx:44-49 | saving appends one saved notice and changes neither the settings nor the token |

`IndexPage.VisitScenario` walks through one visit and asserts each step. The
visit is: a wrong password, then the right credentials, then a reload, then
logout.

## Left out

- JsNumbers.ParseInt: leading white space is not skipped, a `0x` prefix is not read as hexadecimal, and an explicit radix is not modelled. The numeric fields are `type="number"` inputs. The browser hands those over either empty or as a valid floating-point number such as `-5`, `1.5` or `1e3`, so neither white space nor a `0x` prefix reaches parseInt from them.
- JsNumbers.ParseInt: results are unbounded integers. The double rounding of numerals above 2^53, and the distinction between -0 and 0, are not modelled.
- JsNumbers.NumberToString: JavaScript prints numbers of magnitude 10^21 or more in exponent form (`String(1e21)` is "1e+21", which parseInt reads as 1). The model prints every integer in plain digits. So ParseIntOfNumberToString and AdminDashboard.EditingShownValueIsNoChange are stated only below 10^21; above it the program does not restore a typed value. Timestamps stay far below that bound.
- AdminDashboard.EditingShownValueIsNoChange: a NaN field is shown empty rather than as "NaN". Both strings parse to NaN, so the lemma's conclusion is unaffected.
- Layout, styling, icons, tabs (`activeTab`), cards, progress bars, number formatting, the static statistics and log lists, and the log-badge colours are presentation only.
- The download and delete buttons of the file list have no handlers.
- Toast titles, texts and variants are not modelled. Each toast is one event in a `notices` log.
- `async`, React's render scheduling and effect timing are not modelled. Each handler is one atomic step, and the startup effect is the call `Restore` right after construction.
- `isLoading` is true only during a handler, so in this model it is never observed true between steps.
- The form's `email` and `password` state and their change handlers are not modelled. They are the arguments of `HandleLogin`. The browser's `required` check on empty fields is not modelled either; empty credentials take the failure branch.
- localStorage is assumed never to throw. The `catch` branch is reached only through the credential mismatch.
- The dashboard state is a fresh `Dashboard` for each mount. How it relates to the page's mount and unmount is not modelled.
