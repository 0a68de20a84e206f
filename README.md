# Footwear shop: accounts, cart and traffic reporter

A Dafny model of the account, cart and traffic-monitoring core of the footwear
e-commerce site (a Django application with a small browser-side firewall client).

The server side is modelled over explicit tables: users, profiles, carts, cart items,
orders and the activity log. Each table maps auto-incremented primary keys to rows.
The ORM's `filter(...).first()` and `get(...)` are functions on those tables
(`Tables.First`, `Tables.Get`).

Each view and API endpoint is written twice:

- a pure function from the tables and the request to the new tables, the outcome and
  the mails sent;
- a method on the stores (`Accounts.AccountStore`, `Shop.CartStore`,
  `Activity.ActivityLog`) that does the source's steps in the source's order. Its
  `ensures` ties the new state to that function.

The properties the code promises are lemmas about those functions.

The modules:

- `Text`: lower-casing, prefix and substring tests, slicing to a bound.
- `Web`: the request.
- `Tables`: the ORM model.
- `Activity`: `log_activity` and the `str(dict)` fallback.
- `Tracking`: the request-tracking middleware.
- `Accounts`: users, profiles, the post_save and login signals.
- `Serializers`: the REST serializers.
- `Api`: the JSON endpoints.
- `AuthViews`: the form views for login, registration, activation and account
  deletion.
- `Shop`: the cart and order views.
- `Reporter`: the browser script. Its session storage, the events it posts and the
  page form one `Tab` value. A page load (`Load`) and an input event (`Input`) are
  transitions of it, performed step by step by the methods of `Reporter.Client`.

Where the code and the system's stated design disagree, the model follows the code:

- The activity log's `raw_input` is not bounded by 300 characters. The fallback text
  of the whole dictionary includes the full path.
- A body that fails to decode gives the input None, so the row stores that fallback
  text.
- A profile can hold a token while verified. A reset link sets one, and the
  activation page leaves it in place for a verified user.
- The reset endpoint checks the token before the two passwords.
- The registration page compares emails exactly; it does not lower-case them.

## Model

| member | source | states |
|---|---|---|
| Text.Lower | accounts/middleware.py:40 | `path.lower()` keeps the length and lower-cases each character: A-Z, the Latin-1 capitals and the Kelvin sign |
| Text.LowerIdempotent | accounts/middleware.py:40 | lower-casing twice is lower-casing once |
| Text.LowerLatin1Example | accounts/api/serializers.py:18 | the email "a@Ä.de" is lower-cased to "a@ä.de", as `email.lower()` does |
| Text.Take | accounts/middleware.py:27 | `s[:300]` is a prefix of `s`, of length min(|s|, 300) |
| Tables.Insert | accounts/signals.py:15 | `objects.create` stores the row under a key not used before and advances the key sequence |
| Tables.Put | accounts/api/views.py:48 | `save()` of a fetched row stores the new value under its key, keeps every key and leaves every other row as it was |
| Tables.Remove | accounts/views.py:278 | `delete()` removes exactly that key and leaves every other row as it was |
| Tables.First | accounts/api/views.py:41 | `filter(p).first()` is the matching row with the smallest key; None exactly when no row matches |
| Tables.Get | accounts/views.py:104 | `get(p)` raises DoesNotExist exactly when nothing matches; otherwise it finds the row exactly when one row matches |
| Tables.FirstOfUnique | accounts/views.py:32 | when at most one row matches, `first()` is exactly that row |
| Activity.StrRepr | accounts/utils.py:9 | `repr` of a string is quoted with the quote Python picks and is longer than the string |
| Activity.DictText | accounts/utils.py:9 | `str(data)` is a braced text |
| Activity.DictTextLongerThanUrl | accounts/utils.py:9 | the fallback text of a dictionary carrying a url is longer than the url |
| Activity.RowFor | accounts/utils.py:3-11 | the row's user (None for anonymous), ip, action (default "Unknown"), url, raw input (the input if truthy, else the dictionary's text, never empty) and score (default 0) |
| Activity.ActivityLog.LogActivity | accounts/utils.py:4-11 | exactly one row is appended and earlier rows are unchanged |
| Tracking.FirstKeyword | accounts/middleware.py:39-42 | the tag of the first keyword in table order that the path contains; None exactly when none does |
| Tracking.CapturedInput | accounts/middleware.py:16-29 | a POST captures the first 300 characters of the decoded body (None if decoding fails); otherwise a non-empty `q`; otherwise None |
| Tracking.Classify | accounts/middleware.py:15-42 | the loop with `break` computes the tag `ActionOf` and the captured input |
| Tracking.Ignored | accounts/middleware.py:11-13 | ignored paths start with "/a" or "/s" and are at least six characters long |
| Tracking.IgnoredExtends | accounts/middleware.py:11-13 | the prefix test is not a segment test: every extension of an ignored path, such as "/administrator", is ignored too |
| Tracking.Track | accounts/middleware.py:7-52 | the response is returned unchanged; /admin and /static paths write nothing; any other path writes exactly one row |
| Tracking.TrackedRow | accounts/middleware.py:45-50 | a tracked row records the path, the user, the address, the tag and score 0 |
| Tracking.PageVisit | accounts/middleware.py:15-50 | a page with no `q`, no POST and no keyword is a "Page Visit" with no input, so its row stores the dictionary's text |
| Tracking.SearchQuery | accounts/middleware.py:19-21 | a non-empty `q` (no POST, no keyword) is a "Search Query" whose input is `q` |
| Tracking.EmptyQueryIsNoSearch | accounts/middleware.py:19 | an empty or missing `q` never gives "Search Query" |
| Tracking.FormSubmit | accounts/middleware.py:24-29 | a POST is a "Form Submit" whatever `q` is; its input is the 300-character body prefix, or None when decoding fails |
| Tracking.KeywordOverrides | accounts/middleware.py:39-42 | the first keyword found overrides the tag and keeps the captured input |
| Tracking.CartBeatsCheckout | accounts/middleware.py:32-42 | a path with both "cart" and "checkout" is a "Cart Event" |
| Tracking.ActionLabels | accounts/middleware.py:15-42 | every tag is one of the seven the middleware knows |
| Tracking.RawInputNotBounded | accounts/utils.py:9 | when the captured input is falsy, the stored raw input is longer than the path, so nothing bounds it |
| Tracking.RawInputOfForm | accounts/middleware.py:27 | a non-empty decoded POST body is stored truncated to 300 characters |
| Tracking.LoginPostExample | accounts/middleware.py:12-42 | a POST to /accounts/login/ is tracked as "Login Event" and still captures the body |
| Tracking.AdminCaseExample | accounts/middleware.py:12-42 | the /admin prefix test is case-sensitive while the keyword test is not |
| Accounts.PasswordFor | accounts/api/views.py:143 | `set_password(p)` stores a usable credential exactly when `p` is not None |
| Accounts.PasswordForAuthenticates | accounts/views.py:42 | after `set_password(p)` exactly the attempt `p` authenticates, and nothing does when `p` is None |
| Accounts.FirstByUsername | accounts/views.py:32 | with unique usernames, `filter(username=n).first()` is the user named `n` |
| Accounts.FirstByEmail | accounts/api/views.py:116 | with unique emails, `filter(email=e).first()` is the user with email `e` |
| Accounts.FirstByToken | accounts/api/views.py:133 | with unique tokens, the profile lookup by token finds the one profile holding it |
| Accounts.ProfileWithToken | accounts/api/views.py:41 | `Profile.objects.filter(email_token=t).first()` finds a profile exactly when one holds `t` |
| Accounts.ProfileWithTokenUnique | accounts/api/views.py:133 | the profile found is exactly the profile holding the token |
| Accounts.AccountStore.CreateUser | accounts/signals.py:12-20 | a user insert also inserts one unverified profile without a token and keeps the store valid |
| Accounts.AccountStore.SaveUser | accounts/signals.py:18-20 | re-saving a user adds no profile and leaves profiles unchanged |
| Accounts.AccountStore.SaveProfile | accounts/api/views.py:48 | saving a profile replaces exactly that profile |
| Accounts.AccountStore.DeleteUser | accounts/views.py:278 | deleting a user removes its profile with it |
| Accounts.LoginRowShape | accounts/signals.py:26-29 | a login row has action "Login", score 0, the logged-in user and the path; its empty input makes the raw input the dictionary's text |
| Accounts.LogUserLogin | accounts/signals.py:26-29 | the login receiver appends exactly that row |
| Serializers.TextFieldErrors | accounts/api/serializers.py:9-11 | a required text field fails exactly when missing ("required") or empty ("blank") |
| Serializers.FieldErrors | accounts/api/serializers.py:8-15 | the field checks pass exactly when username, names and password are present and non-blank and the username is unused |
| Serializers.Validate | accounts/api/serializers.py:17-27 | the lower-cased email is checked before the username; a missing email raises; accepted data carries the lower-cased email |
| Serializers.IsValid | accounts/api/views.py:25 | `validate` runs only when every field check passed, and all failing fields are reported |
| Serializers.UsernameTakenUnreachable | accounts/api/serializers.py:23-24 | the "already taken" error of `validate` can never be produced through `is_valid` |
| Serializers.EmailConflictFirst | accounts/api/serializers.py:18-21 | an email stored in lower case conflicts whatever the request's case, even when the username is taken too |
| Serializers.AcceptedIsFresh | accounts/api/serializers.py:17-27 | accepted data names a username and a lower-cased email that no stored user holds |
| Serializers.Create | accounts/api/serializers.py:29-48 | one user with the data and the password, an unverified profile with the fresh token, one activation mail with that token |
| Serializers.LoginValidate | accounts/api/serializers.py:56-71 | an unknown lower-cased email is rejected; an accepted user has that email, the password and a verified profile |
| Serializers.LoginValidateOrder | accounts/api/serializers.py:62-68 | for a known email the password is checked before verification |
| Serializers.ViewHidesOnlyPassword | accounts/api/serializers.py:75-78 | two users look the same through the profile serializer exactly when they differ at most in password |
| Api.LoginTarget | accounts/api/views.py:63-66 | the identifier is matched against emails first, then usernames; None exactly when it is neither |
| Api.LoginDecision | accounts/api/views.py:59-76 | the login endpoint checks existence, then verification, then the password; it logs in exactly when all three hold |
| Api.LoginApi | accounts/api/views.py:59-86 | the response is the decision's response; a successful login appends one login row and nothing else changes |
| Api.EmailBeforeUsername | accounts/api/views.py:63-66 | an identifier that is one user's email and another's username selects the email's owner |
| Api.UnverifiedWhateverPassword | accounts/api/views.py:71-72 | an unverified account answers 403 whatever password is sent |
| Api.SerializerAndEndpointDisagree | accounts/api/views.py:71-76 | for an unverified account with a wrong password the serializer blames the password and the endpoint blames the verification |
| Api.Activate | accounts/api/views.py:40-50 | the profile holding the token becomes verified with no token; an unknown token answers 400 and changes nothing |
| Api.ActivateApi | accounts/api/views.py:40-50 | the endpoint's steps produce exactly `Activate`'s state and response |
| Api.ClearedTokenIsGone | accounts/api/views.py:47 | once the only profile holding a token drops it, no profile holds it |
| Api.ActivateOnce | accounts/api/views.py:40-50 | an activation token works once; the second use answers 400 |
| Api.ForgotPassword | accounts/api/views.py:114-126 | the user with that exact email gets the fresh token and one reset mail; an unknown email answers 404 and changes nothing |
| Api.ForgotPasswordApi | accounts/api/views.py:114-126 | the endpoint's steps produce exactly `ForgotPassword`'s state, response and mails |
| Api.ResetTokenActivates | accounts/api/views.py:120-122 | the token of a reset mail also activates the account, since both links share `email_token` |
| Api.ForgotOverwritesActivation | accounts/api/views.py:121-122 | asking for a reset withdraws a pending activation link |
| Api.ResetPassword | accounts/api/views.py:132-148 | token first ("Invalid token"), then the password match; on success the password is set and the token cleared |
| Api.ResetPasswordApi | accounts/api/views.py:132-148 | the endpoint's steps produce exactly `ResetPassword`'s state and response |
| Api.ResetOnce | accounts/api/views.py:145 | a reset token works once |
| Api.ResetSetsPassword | accounts/api/views.py:143 | after a reset exactly the new password authenticates |
| Api.ResetMismatchKeepsToken | accounts/api/views.py:140-141 | a mismatch changes nothing, so the same link still works |
| Api.ResetWithoutPasswords | accounts/api/views.py:137-143 | a reset with neither password succeeds and leaves an unusable password |
| Api.ErrorBody | accounts/api/views.py:25 | the 400 body lists each field error in order |
| Api.Register | accounts/api/views.py:23-31 | 201 exactly when the serializer accepts; then one new user and an unverified profile with the token; a rejection changes nothing; failed field checks answer 400 with the serializer's errors in field order; a conflict answers 400 with its one error; a missing email is a 500 |
| Api.RegisterApi | accounts/api/views.py:23-31 | the endpoint's steps produce exactly `Register`'s state, response and mails |
| Api.SecondActivationMailIsDead | accounts/api/views.py:29 | as written, the second activation mail carries no token, while the first one activates |
| Api.RegisterStoredToken | accounts/api/views.py:29 | the corrected endpoint: same state and response as `Register`, mails only on success |
| Api.EveryActivationMailWorks | accounts/api/views.py:29 | with the correction every activation mail activates the new account |
| Api.RegisteredNeedsActivation | accounts/api/views.py:71-72 | a freshly registered account gets 403 on login until it is activated |
| Shop.UnpaidCart | accounts/views.py:153 | the user's unpaid cart, unique when present |
| Shop.GetOrCreateCart | accounts/views.py:153 | the existing unpaid cart, or one new cart without a coupon; afterwards it is the user's unpaid cart |
| Shop.AddItem | accounts/views.py:156-162 | the item for (cart, product, size) is incremented by one, or created with quantity 1; no other item changes |
| Shop.SizeStep | accounts/views.py:154-162 | an unknown size name is a 404 that changes no item; a found size goes on to the item step |
| Shop.AddToCart | accounts/views.py:145-165 | a missing size and an unknown product change nothing; otherwise the cart step comes before the size lookup |
| Shop.AddedItem | accounts/views.py:153-162 | an added item is in the user's unpaid cart with that product and size, and is the only item changed (+1, or 1 when new) |
| Shop.AddKeepsOneUnpaidCart | accounts/views.py:153 | adding never gives a user a second unpaid cart and never changes an existing cart |
| Shop.UnknownSizeLeavesCart | accounts/views.py:153-154 | an unknown size still leaves behind the new, empty cart |
| Shop.AddTwice | accounts/views.py:156-162 | adding the same product and size twice increments the same item twice |
| Shop.UpdateCartItem | accounts/views.py:170-182 | success exactly when the id and quantity parse and the item is in the user's unpaid cart; then only that quantity changes |
| Shop.UpdateIdempotent | accounts/views.py:176-178 | repeating the same update changes nothing more |
| Shop.UpdateStoresAnyQuantity | accounts/views.py:174-177 | any integer quantity is stored as given, zero and negatives included |
| Shop.RemoveCartItem | accounts/views.py:286-295 | the item is deleted exactly when it is in the user's unpaid cart; otherwise nothing changes |
| Shop.RemoveTwice | accounts/views.py:288-293 | a second removal of the same item fails and changes nothing |
| Shop.RemoveCoupon | accounts/views.py:299-308 | the coupon is cleared exactly when the cart is the user's unpaid cart, and nothing else changes |
| Shop.OrderHistory | accounts/views.py:268-270 | exactly the user's orders, each once, newest first |
| Shop.InsertByDate | accounts/views.py:269 | the insertion step keeps the orders newest first and adds exactly one key |
| Shop.OrderDetails | accounts/views.py:311-313 | an order is shown only to its owner; 404 exactly when the user has no order with that id; an anonymous request fails |
| Shop.OtherUsersOrderHidden | accounts/views.py:312 | another user's order is never shown |
| Shop.DeleteUserRows | accounts/views.py:278 | a user's deletion removes exactly its carts, their items and its orders; other rows stay |
| Shop.CartStore.Add | accounts/views.py:145-165 | the view's steps produce exactly `AddToCart`'s state and outcome |
| Shop.CartStore.AddSized | accounts/views.py:153-162 | the cart, size and item steps produce exactly `SizeStep` after `GetOrCreateCart` |
| Shop.CartStore.FindOrCreateCart | accounts/views.py:153 | the cart step produces exactly `GetOrCreateCart` |
| Shop.CartStore.AddOrIncrement | accounts/views.py:156-162 | the item step produces exactly `AddItem` |
| Shop.CartStore.SetQuantity | accounts/views.py:170-182 | the view's steps produce exactly `UpdateCartItem` |
| Shop.CartStore.RemoveItem | accounts/views.py:286-295 | the view's steps produce exactly `RemoveCartItem` |
| Shop.CartStore.ClearCoupon | accounts/views.py:299-308 | the view's steps produce exactly `RemoveCoupon` |
| Shop.CartStore.DeleteRowsOf | accounts/views.py:278 | the cascade produces exactly `DeleteUserRows` |
| AuthViews.LoginPage | accounts/views.py:25-56 | a POST looks the user up by username only, then checks verification, then the password |
| AuthViews.LoginPageView | accounts/views.py:25-56 | the view's steps give `LoginPage`'s outcome; a successful login appends one login row |
| AuthViews.UnverifiedPageLoginIgnoresPassword | accounts/views.py:38-40 | an unverified user is refused whatever password is sent |
| AuthViews.PageLoginIgnoresEmail | accounts/views.py:32-36 | an email that is nobody's username is an unknown account on the page, while the JSON endpoint finds its owner |
| AuthViews.PageAndEndpointAgree | accounts/views.py:32-54 | for a username that is nobody's email, the page and the JSON endpoint decide alike |
| AuthViews.UuidIsNotRandomToken | accounts/views.py:82 | a UUID token never has the form of a 50-character random token |
| AuthViews.RegisterPage | accounts/views.py:59-90 | the username is checked before the email, both exactly, and a missing field matches no row; a missing username, name or email then fails the insert with no change; otherwise one user, an unverified profile with the token, one mail |
| AuthViews.MissingUsernameFails | accounts/views.py:60-76 | a form without a username whose email is free is a server error that writes nothing and mails nothing |
| AuthViews.NewAccount | accounts/views.py:75-83 | the created user holds the form's fields, and its profile is unverified with the token |
| AuthViews.RegisterPageView | accounts/views.py:59-90 | the view's steps produce exactly `RegisterPage` |
| AuthViews.CreateAccount | accounts/views.py:75-85 | create, set password, fetch and save the profile give `NewAccount`, and the mail gets the saved token |
| AuthViews.UsernameReportedFirst | accounts/views.py:67-73 | a taken username is reported even when the email is taken too |
| AuthViews.EmailCaseMatters | accounts/views.py:71 | an email differing from a stored one only in case registers a second account |
| AuthViews.RegisterTwice | accounts/views.py:67-69 | submitting the same form twice creates one account |
| AuthViews.TokenLookupNeverAmbiguous | accounts/views.py:104 | with unique tokens `get(email_token=t)` never finds several |
| AuthViews.ActivatePage | accounts/views.py:102-119 | an unknown token changes nothing; a verified profile is left as it is, token included; otherwise it is verified and its token cleared |
| AuthViews.ActivatePageView | accounts/views.py:102-119 | the view's steps produce exactly `ActivatePage` |
| AuthViews.ActivatePageOnce | accounts/views.py:110-112 | an activation link works once |
| AuthViews.RegisterActivateLogin | accounts/views.py:25-119 | a new account is refused as unverified, activated by its link, then signed in with its password |
| AuthViews.ActivationPageKeepsResetToken | accounts/views.py:106-108 | the activation page keeps a verified user's reset token usable, while the JSON activation consumes it |
| AuthViews.DeleteAccount | accounts/views.py:274-282 | a POST deletes the user, its profile and its shop rows; anything else changes nothing |
| AuthViews.DeleteAccountView | accounts/views.py:274-282 | the view's steps produce exactly `DeleteAccount` |
| AuthViews.DeletedAccountIsGone | accounts/views.py:275-280 | a deleted user cannot be found by either login, holds no cart or order, leaves others untouched, and its username and email can register again |
| Reporter.Fold | static/js/traffic_reporter.js:59-63 | the `/i` folding of ASCII patterns maps exactly A-Z to a-z and keeps the length |
| Reporter.Rank | static/js/traffic_reporter.js:58-64 | each rule's position in the table |
| Reporter.Filter | static/js/traffic_reporter.js:69-74 | the rules kept are exactly the matching ones |
| Reporter.Analyze | static/js/traffic_reporter.js:66-76 | the loop's `detected` is the matching rules in order and `score` their sum |
| Reporter.FilterOrdered | static/js/traffic_reporter.js:69-74 | the detected rules keep the table's order |
| Reporter.DetectedExactly | static/js/traffic_reporter.js:66-76 | a rule is detected exactly when it matches; detected rules are in table order without repetition |
| Reporter.SumOrdered | static/js/traffic_reporter.js:69-73 | the score of rules in table order is at most the table's total, and 0 exactly when there are none |
| Reporter.ScoreBounds | static/js/traffic_reporter.js:58-76 | a score lies between 0 and 170 and is 0 exactly when nothing is detected |
| Reporter.TableTotal | static/js/traffic_reporter.js:58-64 | the five scores add up to 170 |
| Reporter.SingleRuleBelowBlock | static/js/traffic_reporter.js:151 | one rule alone scores at most 50, so the 70 threshold needs two rules |
| Reporter.ScriptTagExample | static/js/traffic_reporter.js:59 | "<SCRIPT>x</script>" is XSS alone, scoring 40 |
| Reporter.WordBoundaryExample | static/js/traffic_reporter.js:60 | "select 1" hits the `select\b` alternative and "selection" does not |
| Reporter.Trim | static/js/traffic_reporter.js:137 | `trim()` has no white space at either end and is empty exactly for an all-white-space input |
| Reporter.TrimIdempotent | static/js/traffic_reporter.js:137 | trimming twice is trimming once |
| Reporter.Categorize | static/js/traffic_reporter.js:78-82 | the action is one of the four labels, and a page visit exactly when the path contains none of login, signup, register and cart |
| Reporter.CategorizeOrder | static/js/traffic_reporter.js:79-82 | login beats signup/register, which beat cart, which beats a page visit |
| Reporter.CategorizeExample | static/js/traffic_reporter.js:80 | /accounts/login/ is a login attempt |
| Reporter.Send | static/js/traffic_reporter.js:85-113 | an event is appended; a Block or Quarantine reply blocks the page and stores the block at the current time, showing the reply's reason when it is a non-empty string and "Malicious activity detected" otherwise; any other reply leaves the block state alone |
| Reporter.LoadKeepsInvariant | static/js/traffic_reporter.js:127-131 | a page load keeps `reported` free of repeats and equal to the pages of the visit events; a path is added only when reported |
| Reporter.InputKeepsInvariant | static/js/traffic_reporter.js:136-155 | an input event keeps that invariant and never changes `reported` |
| Reporter.ReportedOnce | static/js/traffic_reporter.js:127-131 | each path is reported at most once per session |
| Reporter.RestoreOrExpire | static/js/traffic_reporter.js:28-33 | a block in force is shown again, sending and listening to nothing; an expired one is as if absent |
| Reporter.UrlMarkerBlocks | static/js/traffic_reporter.js:116-123 | a marked URL sends one URL_XSS event with the URL and blocks, not recording the path |
| Reporter.InputGate | static/js/traffic_reporter.js:137-138 | an empty trimmed value, or the last value again, changes nothing |
| Reporter.BlankInputIgnored | static/js/traffic_reporter.js:137-138 | a white-space-only value is never analysed |
| Reporter.InputSends | static/js/traffic_reporter.js:140-150 | a new value sends an event exactly when its score is positive, carrying the value, the rules and the score |
| Reporter.InputBlocks | static/js/traffic_reporter.js:151-153 | without a backend verdict, a new value blocks exactly at score 70 or more, or XSS with "alert(" |
| Reporter.BackendVerdictBlocks | static/js/traffic_reporter.js:106-108 | a Block or Quarantine verdict blocks; a missing or empty reason shows the default message, a non-empty one is shown as given |
| Reporter.RestoreRenewsBlock | static/js/traffic_reporter.js:28-31 | as written, reinstating a block stores it again with the current time |
| Reporter.ReloadsKeepBlock | static/js/traffic_reporter.js:15-31 | a visitor blocked at 0 who reloads every nine minutes is still blocked at eighteen |
| Reporter.LoadKeepingBlockTime | static/js/traffic_reporter.js:28-31 | the corrected restore shows an active block and keeps its stored time |
| Reporter.BlockEndsOnTime | static/js/traffic_reporter.js:28-33 | with the time kept, the first load ten minutes after the block clears it |
| Reporter.Client.BlockPage | static/js/traffic_reporter.js:15-25 | `block` stores the reason with the time and shows it |
| Reporter.Client.SendEvent | static/js/traffic_reporter.js:85-113 | `send` produces exactly `Send` |
| Reporter.Load | static/js/traffic_reporter.js:27-134 | a page load describes the loaded page and resets the last value; it appends at most one event and never changes earlier ones; if the listener is installed, the path is in `reported` |
| Reporter.Input | static/js/traffic_reporter.js:136-155 | an input event leaves `reported`, the page and the listener as they were, appends at most one event and changes no earlier one; without the listener it changes nothing |
| Reporter.Report | static/js/traffic_reporter.js:140-154 | the analysed branch of the listener appends at most one event and touches neither `reported`, the page, the listener nor the last value |
| Reporter.Client.LoadPage | static/js/traffic_reporter.js:27-131 | the script's top level produces exactly `Load` and keeps the session invariant |
| Reporter.Client.VisitPage | static/js/traffic_reporter.js:116-131 | the URL check and the visit report produce exactly `Visit` |
| Reporter.Client.OnInput | static/js/traffic_reporter.js:136-155 | the listener produces exactly `Input` (field = name, else type) and keeps the session invariant |

## Left out

- Text.Lower: Python's `str.lower` also lower-cases capitals beyond Latin-1 (Latin Extended, Greek, Cyrillic and others), and U+0130 becomes two characters ("i" and U+0307), so the length can change. Only A-Z, the Latin-1 capitals U+00C0-U+00DE other than U+00D7, and the Kelvin sign are modelled. The keyword test on the path is not affected: U+0307 breaks "login", and no keyword starts or ends with "i".
- Serializers.Validate: an email holding a capital letter outside the modelled set (for example an internationalised domain in Greek capitals) is not lower-cased, so a conflict with a stored lower-case address that Python finds is missed.
- Serializers.LoginValidate: the same lowering gap. A login with such an email can be rejected as unknown where Python matches the stored address.
- Activity.StrRepr: Python's `repr` also escapes other non-printable characters (`\xNN`, `\uNNNN`). The model escapes only the quote, the backslash, tab, newline and carriage return.
- Serializers.FieldErrors: models presence, blankness and username uniqueness only. DRF's whitespace trimming, the maximum lengths, the username character validator and the email format check are not modelled.
- Serializers.Create: `get_random_string(50)` and `uuid.uuid4()` are parameters. The model assumes a fresh token is held by no profile.
- Api.LoginApi: the JWT access and refresh strings of the 200 body are not modelled. The body holds the message and the user view.
- Password hashing is opaque. A credential is unusable or accepts exactly one password.
- Sessions are not modelled: `login`, `logout`, `last_login` updates and the session cookie.
- Mail delivery is not modelled. Mails are returned as events. base/emails.py is not part of this model.
- accounts/api/views.py imports the mail helpers from accounts.utils, which defines only `log_activity`. The model assumes the helpers exist.
- accounts/models.py is not part of this model. Its defaults are assumed: profile unverified with no token, item quantity 1, no coupon. Deleting a user is assumed to cascade to its profile, carts, cart items and orders.
- Shop.UpdateCartItem and Shop.UpdateStoresAnyQuantity: the quantity column is assumed to have no range constraint. If it is a `PositiveIntegerField`, a negative quantity would fail in `item.save()`, and the view would answer `{"success": False}` with no change; the model stores it.
- Shop.DeleteUserRows and Accounts.AccountStore.DeleteUser: what happens to a deleted user's UserActivity rows is not modelled. The activity log is left unchanged.
- Flash messages, rendered templates and redirect targets are folded into each view's outcome. This includes `login_page`'s `next` check and the GET branch of `delete_account`, which redirects to "profile" without the username argument.
- `login_required` and `require_POST` are not modelled. The cart, order and delete views take an authenticated user. `order_details` is unprotected, so its anonymous case is modelled as a server error.
- Shop.UpdateCartItem: the `error` text of a failed update is not modelled. A failed JSON parse, id or `int()` is a None parameter.
- Shop.RemoveCartItem and Shop.RemoveCoupon: any exception besides a missing row (for example a malformed uid) is not modelled.
- Shop.OrderHistory: the database's order among orders with the same date is not modelled. The contract requires only that dates do not increase.
- Reporter: not modelled are the DOM rewrite, `pointer-events`, console output, `navigator.userAgent` and `platform`, the timestamp, the JSON coding of session storage, and the requests themselves.
- Reporter: the IP from the IP endpoint, the decoded URL and the backend's reply are parameters.
- Reporter: interleavings of input events with a pending `await` are not modelled.
- Reporter.Matches: the regular expressions are modelled as their literal alternatives and their `\b`-terminated words, which is all the five rules contain. No general regex engine is modelled.
- Reporter.Load: the `here` fields (path, URL, IP, category) are set on the restore path too, where the script stops before computing them. Nothing reads them there.

## Findings

| source | as written | input that shows it | evidently intended | confidence | as-written member | corrected member |
|---|---|---|---|---|---|---|
| accounts/api/views.py:29 | the view mails `user.profile.email_token`. That is the profile object the post_save hook cached on the user, whose token is None. The token `create` saved went to a separately fetched profile | any accepted registration: the second activation mail links to no token | both mails carry the stored token, or only the mail from `create` is sent | not executed | Api.SecondActivationMailIsDead | Api.EveryActivationMailWorks |
| static/js/traffic_reporter.js:31 | restoring an active block calls `block()`, which stores the block again with `Date.now()` | a block at 0, reloads at 9 and 18 minutes: still blocked after the 10-minute duration | the block expires 10 minutes after it was imposed | not executed | Reporter.ReloadsKeepBlock | Reporter.BlockEndsOnTime |
