# Mess management: a verified model of the account ledger and meal redemption

This project models the logic of a single-page mess (dining hall) management
app. The app keeps a list of student accounts, an append-only log of meal
redemptions, and a global flag that locks meal-plan changes. The model
covers:

- **the application store** (`App.Store`): the account list, the log, the
  lock and the two sessions (student and admin). It also covers the
  merge-by-id updates the store hands to the components
  (`updateStudent`, `addStudent`, `deleteStudent`, `addTransaction`,
  `updateComplaint`), logout, and the choice of screen;
- **the meal counter's scanner** (`QRScanner`): a token is redeemed for one
  meal after three checks that fail fast in a fixed order (account found,
  positive balance, subscribed to that meal). A success debits exactly one
  token and appends one log entry;
- **the student dashboard**: the daily fee (30 + 60 + 40), the lock-gated
  meal update, and the complaint and payment records appended to the
  logged-in account;
- **the meal-plan page** (`MealBooking`): the plan list, the monthly fee,
  the toggle, the active-plan count and the fee lines;
- **the top-up page** (`PaymentSystem`): the four-tier price table, the
  custom-amount preview, the disabled Pay button, and the payment it emits;
- **the complaint form** (`ComplaintSystem`): validation, the emitted
  draft, the 13 categories, and the status classification;
- **the admin dashboard**: the revenue and subscription figures, the
  day-filtered log sorted newest first, and the overrides. The overrides
  are add-student, room edit, token adjustment clamped at 0, reply, close,
  and the lock toggle;
- **login and registration**: the fail-fast registration checks, the
  account registration creates, and the exact e-mail and password lookup.

State that the source changes in place is modelled with classes:
`App.Store`, `QRScanner.Scanner`, `PaymentSystem.PaymentForm`,
`ComplaintSystem.ComplaintForm`, `Login.LoginForm` and
`AdminDashboard.AdminPanel`. Each handler is a method, and its `ensures`
ties the new state to pure functions of the old state: `UpdateById`,
`RemoveById`, `UpdateComplaintIn`, `Redeem`, `RegisterCheck`,
`PaymentFor`, `Submission`, `DailyTransactions`. The lemmas then prove
what the app promises about those functions. The store's invariant
`Valid()` says that no stored balance or spend total is negative. Every
handler keeps it.

JavaScript behaviour is written out where it matters:

- `String.prototype.trim` uses the ECMAScript white-space set (`Text.Trim`);
- `!s.trim()` becomes `Text.IsBlank`;
- `toUpperCase` applies to ASCII letters (`Text.ToUpperCase`);
- `String(n).padStart(w, '0')` becomes `Text.PadStart` over `Text.DecimalString`;
- `Array.prototype.find`, `filter` and the stable `sort` become
  `Lists.FirstIndex`, `Lists.Filter` and `Lists.SortDesc`;
- an object spread `{ ...a, ...updates }` becomes an `AccountPatch` or a
  `ComplaintPatch` with one optional value per field.

`calculateDailyFee` appears twice, in `StudentDashboard.jsx:18-24` and in
`AdminDashboard.jsx:100-106`, with the same body. It is modelled once, as
`StudentDashboard.CalculateDailyFee`.

The top-up page previews a grant for any amount of 100 or more, but it
emits a payment only for the four listed amounts (`PaymentSystem.jsx:16-17`).
`PaymentSystem.PaymentFor` models exactly that.

## Model

| member | source | states |
|---|---|---|
| App.ScreenFor | src/App.jsx:92-130 | the student view exactly when a student is logged in, the admin view exactly when no student is and the admin flag is set, the login page otherwise |
| App.StampKeepsFields | src/App.jsx:57-70 | a stamped log entry carries every caller field unchanged, plus the given id; `date` is the day of the first clock reading and `timestamp` the second reading |
| App.UpdateKeepsState | src/App.jsx:47-55 | an update writing no negative balance keeps every stored and session balance non-negative, and the session copy stays one of the stored accounts |
| App.SeedLedgerOk | src/App.jsx:11-40 | the initial roster holds STU001 and STU002 with non-negative balances |
| App.Store.constructor | src/App.jsx:7-40 | the store starts with the two seed accounts, an empty log, meals unlocked and nobody logged in |
| App.Store.HandleLogout | src/App.jsx:42-45 | both sessions end, the login page shows, and accounts, log and lock are unchanged |
| App.Store.SetCurrentUser | src/App.jsx:95 | the given account becomes the session, nothing stored changes |
| App.Store.SetAdminLoggedIn | src/App.jsx:96 | only the admin flag changes |
| App.Store.SetMealLocked | src/App.jsx:124 | only the lock changes |
| App.Store.UpdateStudent | src/App.jsx:47-55 | every account with the id is merged with the patch and all other accounts stay as they were; the session copy is merged too when it has the id; log and lock unchanged; the ledger invariant is kept |
| App.Store.AddTransaction | src/App.jsx:57-70 | exactly one entry is appended, stamped with the id and the two clock readings; earlier entries are unchanged, the accounts are untouched |
| App.Store.UpdateComplaint | src/App.jsx:72-82 | only complaints with the complaint id inside accounts with the student id change; everything else, the log and the session copy stay |
| App.Store.AddStudent | src/App.jsx:84-86 | exactly one account is appended at the end, existing accounts keep their order |
| App.Store.DeleteStudent | src/App.jsx:88-90 | every account with the id is removed, the others stay, and the log is untouched |
| App.DeleteKeepsOrder | src/App.jsx:88-90 | deleting from `a + b` gives the survivors of `a` followed by the survivors of `b`, so the order is kept |
| Records.FindById | src/components/AdminDashboard.jsx:155 | finds the first account with that id (no earlier account has it), and finds none exactly when no account has it |
| Records.UpdateById | src/App.jsx:47-50 | same length; each account with the id is merged with the patch, every other account is unchanged |
| Records.ApplyThen | src/App.jsx:53 | merging two patches in turn is merging their combination |
| Records.ApplyIdempotent | src/App.jsx:49 | merging the same patch twice is merging it once |
| Records.ApplyKeepsIdentity | src/App.jsx:49 | a patch never changes id, name, e-mail or password, and the empty patch changes nothing |
| Records.MealPatchWritesOneFlag | src/components/StudentDashboard.jsx:33 | a meal patch sets the named flag and leaves the other two flags and every other field |
| Records.UpdateUnknownId | src/App.jsx:47-50 | an id no account carries leaves the list unchanged |
| Records.UpdateKeepsIds | src/App.jsx:47-50 | an update keeps every account's id in its place |
| Records.UpdateKeepsLedgerOk | src/App.jsx:47-50 | a patch writing no negative balance or spend keeps all balances non-negative |
| Records.UpdateKeepsMember | src/App.jsx:52-54 | a stored account, merged if it has the id, is still stored after the update |
| Records.RemoveById | src/App.jsx:88-90 | no survivor has the id, every survivor was stored, every account with another id survives, an unknown id changes nothing |
| Records.UpdateComplaintById | src/App.jsx:75-77 | same length; only complaints with the id are merged |
| Records.UpdateComplaintIn | src/App.jsx:72-82 | only the complaint lists of accounts with the student id change, each by the complaint-id merge |
| Records.UpdateComplaintUnknown | src/App.jsx:72-82 | an unknown student or complaint id leaves the accounts unchanged |
| Records.UpdateComplaintKeepsLedger | src/App.jsx:72-82 | a complaint update changes no balance, spend, flag or payment, so the ledger invariant is kept |
| Records.StudentIdNumber | src/components/Login.jsx:48 | `STU` + the padded number reads back as that number |
| Records.StudentIdInjective | src/components/Login.jsx:48 | different numbers give different ids |
| Records.StudentIdWidth | src/components/Login.jsx:48 | below 1000 the id has six characters |
| Records.StudentIdFirst | src/components/Login.jsx:48 | number 1 gives `STU001` |
| Records.StudentIdTwoDigitsTwo | src/components/Login.jsx:48 | number 2 gives `STU002` |
| Records.MaxIdNumberBounds | src/components/Login.jsx:48 | the largest id number on the roster bounds every numbered id on it |
| Records.RosterIdCollides | src/components/Login.jsx:48 | as written: after deleting STU001 from the seed roster, the length-derived id is STU002, which is still taken |
| Records.NextStudentIdFresh | src/components/Login.jsx:48 | corrected: the next id (largest number + 1) is carried by no account on the roster |
| Records.NextStudentIdAgrees | src/components/Login.jsx:48 | on the untouched seed roster the corrected id and the length-derived id agree |
| Records.RoomNameRoundTrip | src/components/AdminDashboard.jsx:112-117 | a generated room (block A, B or C, floor 1 to 3, number 01 to 20) parses back to its block, floor and number |
| Records.ParseRoomSound | src/components/AdminDashboard.jsx:112-117 | every string that parses as a room is the room generated from its parts |
| QRScanner.Check | src/components/QRScanner.jsx:16-30 | not found exactly when the upper-cased id finds no account; otherwise refused for `tokens <= 0` first, then for no subscription to the meal, else redeemable |
| QRScanner.RefusalChangesNothing | src/components/QRScanner.jsx:11-30 | a blank id and every refusal leave accounts and log unchanged |
| QRScanner.SuccessDebitsOne | src/components/QRScanner.jsx:32-45 | a success writes `tokens - 1` and nothing else into the matching accounts, and appends exactly one entry with the student, meal, one token used and the new balance |
| QRScanner.SuccessLeavesOneLess | src/components/QRScanner.jsx:32-33 | after a success the same id finds the account with exactly one token less |
| QRScanner.RedeemKeepsLedgerOk | src/components/QRScanner.jsx:22-33 | redemption never makes a balance negative |
| QRScanner.RedeemIgnoresCase | src/components/QRScanner.jsx:16 | redeeming an id does the same as redeeming its upper-cased form |
| QRScanner.SeedScenario | src/components/QRScanner.jsx:16-33 | on the seed roster `stu001` redeems breakfast and is refused dinner as unsubscribed |
| QRScanner.SeedLowerCaseFound | src/components/QRScanner.jsx:16 | `stu001` finds the account STU001 |
| QRScanner.SeedUnknownId | src/components/QRScanner.jsx:17-20 | `STU003` is not found on the seed roster |
| QRScanner.ScannedId | src/components/QRScanner.jsx:58-69 | the payload's `studentId` when the code carries one, otherwise the raw text verbatim |
| QRScanner.Scanner.constructor | src/components/QRScanner.jsx:5-8 | empty field and no result for the given meal and store |
| QRScanner.Scanner.VerifyAndRedeem | src/components/QRScanner.jsx:10-56 | accounts and log become what `Redeem` gives; a blank id leaves the result as it was, otherwise the result reflects the verdict; the logged-in copy is patched exactly when it is the redeemed account (`RedeemSession`); the lock is neither read nor written; the ledger invariant is kept |
| QRScanner.Scanner.Decide | src/components/QRScanner.jsx:16-30 | the early-return chain returns exactly the verdict of `Check` |
| QRScanner.Scanner.Debit | src/components/QRScanner.jsx:32-45 | writes the debit into the matching accounts, patches the logged-in copy when it is that account, and appends the one stamped entry |
| QRScanner.Scanner.HandleScannedCode | src/components/QRScanner.jsx:58-69 | the field shows the id taken from the code; that id is redeemed as `Redeem` gives, the result is left alone for a blank id and otherwise reflects the verdict; the logged-in copy follows `RedeemSession`; lock and admin flag unchanged, ledger invariant and session sync kept |
| QRScanner.Scanner.HandleManualScan | src/components/QRScanner.jsx:97-99 | the typed id is redeemed as `Redeem` gives and stays in the field; the result is left alone for a blank id and otherwise reflects the verdict; the logged-in copy follows `RedeemSession`; lock and admin flag unchanged |
| StudentDashboard.CalculateDailyFee | src/components/StudentDashboard.jsx:18-24 | the accumulated total is the sum of 30, 60 and 40 over the enabled meals, between 0 and 130 |
| StudentDashboard.DailyFeeBounds | src/components/StudentDashboard.jsx:12-24 | the fee is between 0 and 130, 0 exactly with no meal and 130 exactly with all three |
| StudentDashboard.DailyFeeIdentifiesPlan | src/components/StudentDashboard.jsx:12-24 | two plans with the same daily fee are the same plan |
| StudentDashboard.HandleMealUpdate | src/components/StudentDashboard.jsx:28-34 | while locked nothing changes; otherwise only the named flag of the logged-in account, stored and session copy, takes the value |
| StudentDashboard.ComplaintAddedEffect | src/components/StudentDashboard.jsx:36-46 | exactly one complaint is appended, status `pending` (shown as pending), earlier complaints and all other fields are kept |
| StudentDashboard.AddComplaint | src/components/StudentDashboard.jsx:36-46 | the complaint patch is merged into the logged-in account, stored and session copy, in one update |
| StudentDashboard.PaymentAddedEffect | src/components/StudentDashboard.jsx:48-61 | one `completed` payment is appended, tokens rise by the payment's tokens and spend by its amount, nothing else changes |
| StudentDashboard.ShopPaymentKeepsLedger | src/components/StudentDashboard.jsx:48-61 | a payment from the top-up page writes no negative balance or spend |
| StudentDashboard.AddPayment | src/components/StudentDashboard.jsx:48-61 | the three effects are one merge into the logged-in account, stored and session copy |
| StudentDashboard.PaymentReachesStore | src/components/StudentDashboard.jsx:48-61 | the credited account is on the roster after the update |
| MealBooking.MealPlans | src/components/MealBooking.jsx:8-30 | three plans, breakfast, lunch, dinner, each enabled as the account's flag and priced from the rate table |
| MealBooking.MonthlyFeeBounds | src/components/MealBooking.jsx:5-6 | the monthly fee is 30 times the daily fee: a multiple of 30, at most 3900, 0 exactly with no meal |
| MealBooking.ToggleFlipsOneMeal | src/components/MealBooking.jsx:59 | the toggle flips the one meal's flag, leaves the others, and toggling twice restores it |
| MealBooking.ActivePlansCount | src/components/MealBooking.jsx:89 | the count is the number of enabled flags, between 0 and 3, and 0 exactly when the fee is 0 |
| MealBooking.FeeLinesSumToDailyFee | src/components/MealBooking.jsx:111-124 | each line is the rate if subscribed and 0 otherwise, and the lines sum to the daily fee |
| PaymentSystem.TierFor | src/components/PaymentSystem.jsx:8-17 | finds the listed tier with that amount, none exactly when no tier lists it |
| PaymentSystem.TierTable | src/components/PaymentSystem.jsx:8-13 | the tiers are 500→50, 1000→110, 2000→240, 5000→650 tokens, each a tenth of the amount plus its bonus |
| PaymentSystem.PaymentFor | src/components/PaymentSystem.jsx:15-30 | a payment is emitted exactly for a listed amount with confirmation, with that amount, the tier's tokens, the method and the description |
| PaymentSystem.EmittedPaymentIsTier | src/components/PaymentSystem.jsx:16-17 | an emitted payment is for one of the four amounts, with positive tokens |
| PaymentSystem.DisabledIsCustom | src/components/PaymentSystem.jsx:32 | an amount below 100 is never a listed amount |
| PaymentSystem.PreviewGrant | src/components/PaymentSystem.jsx:85-93 | as written: a preview shows exactly from 100 up, at least a tenth of the amount |
| PaymentSystem.PreviewDisagreesWithTable | src/components/PaymentSystem.jsx:85-93 | as written: the preview shows 120 for 1000 and 600 for 5000, where the payment grants 110 and 650 |
| PaymentSystem.QuotedGrant | src/components/PaymentSystem.jsx:85-93 | corrected: the quote shows from 100 up, is the tier's tokens at listed amounts and the formula elsewhere |
| PaymentSystem.QuoteMatchesPayment | src/components/PaymentSystem.jsx:15-30 | corrected: the quote equals the tokens of every payment emitted |
| PaymentSystem.PaymentForm.constructor | src/components/PaymentSystem.jsx:5-6 | the amount starts at 500 and the method at UPI |
| PaymentSystem.PaymentForm.SetPaymentAmount | src/components/PaymentSystem.jsx:5 | only the amount changes |
| PaymentSystem.PaymentForm.SetPaymentMethod | src/components/PaymentSystem.jsx:6 | only the method changes |
| PaymentSystem.PaymentForm.Preview | src/components/PaymentSystem.jsx:85-93 | as written: a grant is shown exactly from 100 up, at least a tenth of the amount, by the preview formula |
| PaymentSystem.PaymentForm.HandlePayment | src/components/PaymentSystem.jsx:15-30 | emits what `PaymentFor` gives; after an emission the amount resets to 500, otherwise it stays |
| ComplaintSystem.CategoryRoundTrip | src/components/ComplaintSystem.jsx:47-71 | every category's option value parses back to it, and every parsed value is an option value |
| ComplaintSystem.CategoryValueParses | src/components/ComplaintSystem.jsx:47-71 | each of the 13 option values parses to its category |
| ComplaintSystem.CategoryValueInjective | src/components/ComplaintSystem.jsx:47-71 | no two categories share an option value |
| ComplaintSystem.Submission | src/components/ComplaintSystem.jsx:9-21 | nothing is emitted exactly when subject or description is blank; otherwise the untrimmed texts, the category and type `complaint` |
| ComplaintSystem.StatusIconFor | src/components/ComplaintSystem.jsx:29-38 | `resolved` and `in-progress` are told apart, every other status shows as pending |
| ComplaintSystem.ComplaintForm.constructor | src/components/ComplaintSystem.jsx:5-7 | empty texts and category `food-quality` |
| ComplaintSystem.ComplaintForm.SetCategory | src/components/ComplaintSystem.jsx:47-71 | a chosen option value sets that category and nothing else |
| ComplaintSystem.ComplaintForm.SetFields | src/components/ComplaintSystem.jsx:5-6 | only subject and description change |
| ComplaintSystem.ComplaintForm.HandleSubmit | src/components/ComplaintSystem.jsx:9-27 | emits what `Submission` gives; after an emission the form resets to empty texts and `food-quality`, otherwise it is kept |
| AdminDashboard.RevenueAppend | src/components/AdminDashboard.jsx:25 | the revenue of two rosters together is the sum of their revenues |
| AdminDashboard.RevenueNonNegative | src/components/AdminDashboard.jsx:25 | with no negative spend the revenue is not negative |
| AdminDashboard.RevenueIgnoresOtherUpdates | src/components/AdminDashboard.jsx:25 | an update that does not write the spend total leaves the revenue as it was |
| AdminDashboard.RevenueAfterRedemption | src/components/AdminDashboard.jsx:25 | redeeming a meal does not change the revenue |
| AdminDashboard.CountsBounded | src/components/AdminDashboard.jsx:26-31 | each meal count is at most the active subscriptions, which are at most the roster size and at most the sum of the three counts |
| AdminDashboard.DailyTransactionsSpec | src/components/AdminDashboard.jsx:34-42 | each entry of the selected day exactly as often as it is logged and no other entry, newest first, and entries with equal time keep their log order |
| AdminDashboard.NewEntryListedToday | src/components/AdminDashboard.jsx:34-42 | a freshly stamped entry appears in the report of the day of its first clock reading |
| AdminDashboard.ClampedBalance | src/components/AdminDashboard.jsx:157 | the new balance is never negative, at least the moved balance, equal to it when that is not negative, and 0 when it is negative |
| AdminDashboard.ComplaintLifecycle | src/components/AdminDashboard.jsx:162-183 | a pending complaint, replied to and then closed, shows pending, in-progress, resolved; the reply and its time survive closing; actions are offered until it is resolved; nothing else changes |
| AdminDashboard.CloseKeepsNoReply | src/components/AdminDashboard.jsx:177-183 | closing an unanswered complaint resolves it and invents no reply |
| AdminDashboard.AdminPanel.constructor | src/components/AdminDashboard.jsx:8-16 | empty forms, nothing being edited, the report day set to today |
| AdminDashboard.AdminPanel.HandleAddStudent | src/components/AdminDashboard.jsx:108-141 | with three non-empty fields one zeroed account with id `STU` + pad3(length + 1) and the drawn room is appended and the three fields cleared; otherwise nothing changes; sessions, log, lock and the other form fields stay |
| AdminDashboard.AdminPanel.HandleRoomChange | src/components/AdminDashboard.jsx:143-152 | a blank room changes nothing; otherwise only the trimmed room is written into the matching accounts and the session copy, and the editor closes; the other form fields stay |
| AdminDashboard.AdminPanel.HandleTokenUpdate | src/components/AdminDashboard.jsx:154-160 | an unknown id changes nothing; otherwise the found balance moved by the change and clamped at 0 is written into the matching accounts and the session copy |
| AdminDashboard.AdminPanel.HandleReplyToComplaint | src/components/AdminDashboard.jsx:162-175 | blank text changes nothing; otherwise the untrimmed reply, `in-progress` and the time go into that one complaint and the reply box closes; sessions and the other form fields stay |
| AdminDashboard.AdminPanel.HandleCloseComplaint | src/components/AdminDashboard.jsx:177-183 | that one complaint becomes `resolved` with the time, nothing else changes |
| AdminDashboard.AdminPanel.ToggleMealLock | src/components/AdminDashboard.jsx:276 | the lock flips and no account or entry changes |
| Login.FindByCredentials | src/components/Login.jsx:22-29 | the first account with exactly that e-mail and password, none exactly when no account matches both |
| Login.LoginResult | src/components/Login.jsx:16-30 | no session when e-mail or password is blank or nothing matches; otherwise the first matching account |
| Login.RegisterCheck | src/components/Login.jsx:33-46 | missing field exactly when a field is blank, then mismatch exactly when the confirmation differs, then taken exactly when the e-mail is registered |
| Login.RegisteredAccount | src/components/Login.jsx:48-70 | id `STU` + pad3(length + 1), the drawn room, 0 tokens and spend, no meals, no complaints or payments |
| Login.RegisterAfterDeleteRepeatsId | src/components/Login.jsx:48 | after deleting STU001 from the seed accounts, registration gives the new account STU002, the id the remaining account holds |
| Login.RegisterKeepsEmailsUnique | src/components/Login.jsx:43-46 | a registration that passes the checks never adds a second account with a registered e-mail |
| Login.RegisterThenLogin | src/components/Login.jsx:16-80 | after registering, logging in with the same e-mail and password succeeds |
| Login.SeedLogin | src/components/Login.jsx:16-30 | on the seed roster Priya logs in with `1234` and not with `12345` |
| Login.SeedWrongPassword | src/components/Login.jsx:22-29 | no seed account matches `priya@college.com` with `12345` |
| Login.LoginForm.constructor | src/components/Login.jsx:5-14 | login mode with empty fields |
| Login.LoginForm.HandleStudentLogin | src/components/Login.jsx:16-30 | a match becomes the session and clears the two login fields; otherwise nothing changes; the mode, admin and registration fields stay |
| Login.LoginForm.Authenticate | src/components/Login.jsx:16-29 | the guard and lookup return exactly `LoginResult` |
| Login.LoginForm.HandleRegister | src/components/Login.jsx:32-80 | when the checks pass one registered account is appended and the form resets to login mode; otherwise nothing is added and the fields and mode stay; the login and admin fields stay in both cases |
| Login.LoginForm.ValidateRegistration | src/components/Login.jsx:33-46 | the guard chain returns exactly `RegisterCheck` |
| Login.LoginForm.HandleAdminLogin | src/components/Login.jsx:82-88 | the admin session starts exactly when the password is the fixed constant, which then clears the field; every other form field stays |
| Text.TrimStart | src/components/QRScanner.jsx:11 | drops exactly a blank prefix, leaving no leading white space |
| Text.TrimEnd | src/components/QRScanner.jsx:11 | drops exactly a blank suffix, leaving no trailing white space |
| Text.Trim | src/components/AdminDashboard.jsx:149 | no longer than the input, no white space at either end |
| Text.TrimIsCore | src/components/AdminDashboard.jsx:149 | the trimmed text is the part between the blank prefix and the blank suffix |
| Text.TrimEmptyIffBlank | src/components/QRScanner.jsx:11 | trimming gives the empty string exactly for blank input |
| Text.TrimIdempotent | src/components/AdminDashboard.jsx:149 | trimming twice is trimming once |
| Text.ToUpperCase | src/components/QRScanner.jsx:16 | same length, each character upper-cased |
| Text.UpperCaseResult | src/components/QRScanner.jsx:16 | the result is upper-cased, and upper-cased text is left alone |
| Text.UpperCaseIdempotent | src/components/QRScanner.jsx:16 | upper-casing twice is upper-casing once |
| Text.UpperCaseKeepsBlank | src/components/QRScanner.jsx:11-16 | upper-casing keeps blankness both ways |
| Text.DecimalRoundTrip | src/components/Login.jsx:48 | `String(n)` reads back as `n` |
| Text.DecimalLength | src/components/Login.jsx:48 | a number below 10^k has at most k digits |
| Text.PadStartShape | src/components/Login.jsx:48 | padding keeps the text as the suffix and fills the front with the fill character |
| Text.PaddedDecimal | src/components/Login.jsx:48 | the zero-padded number is all digits and reads back as the number |
| Lists.FirstIndex | src/components/QRScanner.jsx:16 | the first position satisfying the test, none exactly when no element does |
| Lists.Filter | src/components/AdminDashboard.jsx:26-42 | every kept element passes and was in the input, every passing element is kept, no element more often than in the input |
| Lists.FilterCount | src/components/AdminDashboard.jsx:26-42 | each passing element is kept exactly as often as it occurs, each failing one never |
| Lists.FilterAppend | src/App.jsx:89 | filtering a concatenation concatenates the filtered parts |
| Lists.InsertDesc | src/components/AdminDashboard.jsx:38-42 | insertion into a newest-first list keeps it sorted and adds exactly the element |
| Lists.SortDesc | src/components/AdminDashboard.jsx:38-42 | the result is sorted newest first and a permutation of the input |
| Lists.SortStable | src/components/AdminDashboard.jsx:38-42 | elements with equal keys keep their relative order |

## Left out

- Rendering: the JSX, styling, `alert` messages, and the printed report
  with `window.open` and `print` (`AdminDashboard.jsx:44-98`) are
  presentation and browser I/O.
- The camera scanner (`QRScanner.jsx:71-95`) and the QR image are foreign
  libraries. `QRGenerator.jsx` is not part of this model. A scanned code
  reaches the model as its raw text plus `payloadId`. `payloadId` is the
  `studentId` string when the code parses as a JSON object carrying one.
  Three things throw inside the `try`, and then the raw text is used:
  `JSON.parse` on text that does not parse (`QRScanner.jsx:60`), reading
  `.studentId` of a `null` payload (`:61`), and `studentId.trim()` in
  `verifyAndRedeem` when `studentId` is missing or not a string (`:11`).
- Clocks and randomness become parameters:
  - the transaction id `Date.now() + Math.random()` is a `real`;
  - `addTransaction` reads the clock twice (`App.jsx:61-62`). The model
    passes both readings as an `App.Clock`, so an entry logged across
    midnight UTC can carry a `date` one day before its `timestamp`;
  - other clock readings are a `createdAt` or reply/resolve time string;
  - the random room choice is the three indices `b`, `f`, `r`;
  - the complaint and payment ids are integers.
- `window.confirm` in `handlePayment` is the `confirmed` parameter.
- The three-second `setTimeout` that clears the scanner result is UI timing.
- React mechanics are not modelled: asynchronous batching of `setState` and
  stale closures. Each handler runs sequentially and atomically.
- `QRScanner.Scanner.VerifyAndRedeem`: assumes `addTransaction` is always
  passed. The `if (addTransaction)` guard at `QRScanner.jsx:36` is never
  false in the app (`AdminDashboard.jsx:188-194`).
- `Text.ToUpperCase`: maps ASCII letters only. Full Unicode case mapping,
  which JavaScript applies, is not modelled.
- `AdminDashboard.AdminPanel.HandleTokenUpdate`: assumes integer amounts.
  The buttons pass `+1` and `-1`. NaN and fractional numbers are not
  modelled.
- `PaymentSystem.PaymentForm.SetPaymentAmount`: takes an integer amount.
  The field stores `Number(e.target.value)` (`PaymentSystem.jsx:64`). An
  empty field gives 0, which is covered. Non-integer amounts such as 150.5,
  whose preview the formula floors, are not modelled.
- The invariant that `totalSpent` equals the sum of the payments is not
  stated, because the seed accounts have spend totals and no payments.
  Only the per-payment increment is proved.
- Global id and e-mail uniqueness are not invariants of the store:
  - admin add performs no e-mail check;
  - the source derives ids from the roster length (see Findings).
  Registration is proved to keep e-mails unique when they were unique.
- `App.Store.UpdateComplaint`: does not refresh the logged-in student's
  copy, as in the source (`App.jsx:72-82` has no `setCurrentUser`).
- Passwords are plaintext and the admin password is a constant. Only the
  equality checks are modelled.

## Findings

| source | as written | input that shows it | evidently intended | confidence | as-written member | corrected member |
|---|---|---|---|---|---|---|
| src/components/PaymentSystem.jsx:85-93 | the preview shows `floor(a/10) + (a >= 1000 ? floor(a/50) : 0)` tokens for every amount, also for the four listed ones | amount 1000 previews 120 tokens, the payment grants 110; amount 5000 previews 600, the payment grants 650 | the preview of a listed amount shows the tokens that amount buys | not executed | PaymentSystem.PreviewDisagreesWithTable | PaymentSystem.QuoteMatchesPayment |
| src/components/Login.jsx:48 | a new id is `STU` + padded (number of accounts + 1) | from the seed roster delete STU001, then register: the new id is STU002, which STU002 already holds | a new id no account holds, one above the largest number in use | not executed | Login.RegisterAfterDeleteRepeatsId | Records.NextStudentIdFresh |
| src/components/AdminDashboard.jsx:110 | the admin add derives the id from the roster length in the same way | delete STU001 from the seed roster, then add a student: the new id is STU002, already taken | a new id no account holds | not executed | Records.RosterIdCollides | Records.NextStudentIdFresh |

The handlers keep the behaviour as written:
- `Login.Registered` and `AdminDashboard.AdminPanel.HandleAddStudent` use
  the length-derived `Records.RosterStudentId`.
  `Login.RegisterAfterDeleteRepeatsId` shows the repeated id reached
  through registration.
- `PaymentSystem.PaymentForm.Preview` shows `PaymentSystem.PreviewGrant`.

The corrected definitions stand beside them with their properties proved:
- `Records.NextStudentId` with `Records.NextStudentIdFresh`.
  `Records.NextStudentIdAgrees` shows that it agrees with the source's id
  on the untouched seed roster.
- `PaymentSystem.QuotedGrant` with `PaymentSystem.QuoteMatchesPayment`.
