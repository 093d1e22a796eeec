# Learnify backend core in Dafny

A model of the logic at the heart of the Learnify course-platform backend, an
Express server over MongoDB. It covers:

- **Subscription lifecycle.** Users buy a Razorpay subscription, the payment
  callback is verified by its HMAC signature, and cancelling the subscription
  refunds the payment inside a configured window.
- **Stats snapshots and the admin dashboard.** The latest snapshot is
  recomputed whenever the users or the courses change. A new snapshot is
  opened each month. The dashboard pads the last twelve snapshots and
  derives month-over-month percentages and profit flags.
- **Document edits.** These are the playlist, the lecture list with its
  video count, the view counter and the role toggle.
- **Access checks and record rules.** These are the token and role checks
  of the route middleware, and the validation rules, defaults, pre-save hook
  and reset token of the user and course schemas.
- **Input checks** of registration, login, password reset, course creation
  and the two contact forms.

## Structure

| file | module | what it holds |
|---|---|---|
| `common.dfy` | `Common` | `Option`, `Result`, the failure kinds, `Media` (a Cloudinary `{public_id, url}`), `Email`, the ObjectId cast test |
| `seqs.dfy` | `Seqs` | `First` (array `find` / `findOne` / `findById`), `Filter`, `Reverse` |
| `user_model.dfy` | `UserModel` | the user document, its validators, defaults, pre-save hook and reset token; `UserCollection` |
| `course_model.dfy` | `CourseModel` | the course and lecture documents, validators, defaults; `CourseCollection` |
| `auth.dfy` | `Auth` | `isAuthenticated`, `authorizeAdmin`, `authorizeSubscribers` and the chains routes build from them |
| `payments.dfy` | `Payments` | Payment rows, the gateway client, `buySubscription`, `paymentVerification`, `cancelSubscription` |
| `stats.dfy` | `Stats` | Stats rows, the two recomputations, the monthly row, the newest-first query |
| `dashboard.dfy` | `Dashboard`, `ContactForms` | `getDashboardStats` as written and as intended; `contact`, `courseRequest` |
| `user_controller.dfy` | `UserController` | register, login, password reset, playlist, role toggle, the `User.watch` handler |
| `course_controller.dfy` | `CourseController` | course creation, lectures, views, the `Course.watch` handler |

### Modelling conventions

- **Collections.** Documents are values. Each MongoDB collection is an
  object with one `seq` field, `docs` for users and courses and `rows`
  for payments and stats, which the handlers reassign. "Load, change, `save()`"
  becomes a replacement at the document's index. `findById`/`findOne` is
  `First` over the collection in insertion order.
- **The payment gateway.** The Razorpay client is an object that records
  every request it is sent, in order. What the gateway answers is a
  parameter of each handler: an `Option` whose `None` means the call
  failed, or a flag.
- **Uploads.** What Cloudinary returns for an upload is also a parameter.
- **Foreign crypto.** HMAC-SHA256, SHA-256, bcrypt and bcrypt's comparison
  are function-valued parameters with no interpretation.
- **Clock and environment.** The clock (`Date.now()`, in milliseconds) and
  the environment variables are parameters.
- **Request fields.** A request field is a string, and `""` stands for a
  missing or falsy field. The callback's payment id is the exception: the
  handler concatenates it into the signed text, where a missing id reads
  "undefined", so it is an `Option`.
- **String lengths.** The schema's `minlength` and `maxlength` measure
  JavaScript's `.length`, the number of UTF-16 code units. `JsLength`
  counts two units for a character outside the Basic Multilingual Plane.
- **Handler outcomes.**
  - An `ErrorHandler(message, status)` passed to `next` is
    `Err(HttpError(status, message))`.
  - A Mongoose validation failure on `create`/`save` is
    `Err(ValidationFailed)`, with nothing stored.
  - A failed gateway, upload or mail call is `Err(ServiceFailed)`.
  - A `findById` on a present id that is not a well-formed ObjectId
    rejects with a CastError, which is `Err(Thrown(CastToObjectId))`. The
    driver's format test is the parameter `isObjectId`.
  - A JavaScript exception inside the handler is `Err(Thrown(..))`.
- **The authenticated user.** Handlers behind `isAuthenticated` take the
  authenticated user's id and require that it names a stored document.
- **Dashboard numbers.** The dashboard's JavaScript numbers are exact
  rationals (`real`). Division by zero yields `PosInfinity`, `NegInfinity`
  or `NaN`, as JavaScript does, so the model states explicitly where the
  handler divides by a zero baseline.

### Where the code departs from its own comments and names

The model follows the code.

- **No already-subscribed check.** Step 3 of `buySubscription` is
  commented as checking whether the user is already subscribed, but the
  code under it only picks the plan id. A user who already holds a
  subscription is not refused.
- **Which subscription id is signed.** The callback's
  `razorpay_subscription_id` is read from the request and stored, but the
  signature is computed over the subscription id *stored on the user*.
- **Cancelling without a Payment row.** `cancelSubscription` sends the
  gateway cancel *before* looking for the Payment row. If there is no row,
  the handler then throws on reading the row's `createdAt`.
- **Payment rows and subscriptions.** Nothing keeps one Payment row per
  paid subscription. A repeated callback adds a second row for the same
  subscription. Cancelling deletes only the first row and clears the
  user's subscription, leaving the other row behind. A second purchase
  over an active subscription makes the user inactive while the first
  subscription's row stays (`Payments.RepeatedCallbackExample`,
  `Payments.BuyOverActiveExample`).
- **Order of the dashboard series.** The series is padded at the front,
  as an oldest-first list would be, but the query sorts newest first. So
  the point the handler reads `usersCount`, `viewsCount` and
  `subscriptionCount` from is the oldest fetched row.
- **The percentage `else`.** The `else` block computes all three
  differences, but it binds to the subscription test alone.

Both dashboard points are listed under Findings.

## Model

| member | source | states |
|---|---|---|
| Common.JsLength | models/Course.js:8-16 | the UTF-16 length: at least the number of characters and at most twice it, and equal to it when every character is in the Basic Multilingual Plane |
| Seqs.First | controllers/userController.js:276-280 | the index of the first element satisfying the test, and none exactly when no element does |
| Seqs.Filter | controllers/userController.js:327-329 | every kept element is in the input and passes the test; every passing input element is kept; no longer than the input |
| UserModel.PasswordValid | models/User.js:22-28 | a password passes exactly when it has at least six UTF-16 code units; six characters always suffice |
| UserModel.UserValid | models/User.js:7-50 | a valid user has a name, an email, a password of at least six code units and both avatar fields |
| UserModel.ThreeAstralCharactersMakeAPassword | models/User.js:22-28 | a password of three characters outside the Basic Multilingual Plane is six code units long and passes |
| UserModel.ValidityIgnoresEditedFields | models/User.js:29-74 | role, subscription, playlist and the reset fields never decide whether a user passes the validators |
| UserModel.NewUser | models/User.js:29-68 | a new document has role `user`, no subscription, an empty playlist and no reset token |
| UserModel.PreSave | models/User.js:78-84 | the password becomes its bcrypt digest exactly when it was modified; nothing else changes |
| UserModel.GetResetToken | models/User.js:103-116 | stores SHA-256 of the raw token and an expiry 900000 ms after now, returns the raw token, changes nothing else |
| UserModel.ResetRequestMatches | controllers/userController.js:239-242 | a user matches the reset query exactly when its stored digest is the given one and its expiry is set and later than now |
| UserModel.ResetTokenLifetime | models/User.js:113 | a freshly issued token is accepted by the reset query exactly while now is less than issue time plus fifteen minutes |
| CourseModel.LectureValid | models/Course.js:19-44 | a lecture passes exactly when its title, description and both video fields are present |
| CourseModel.CourseValid | models/Course.js:5-78 | a valid course has a title of 4 to 80 code units, a description of at least 20 and only valid lectures |
| CourseModel.TwoAstralCharactersMakeATitle | models/Course.js:5-10 | a title of two characters outside the Basic Multilingual Plane is four code units long and within the title bounds |
| CourseModel.LectureEditsKeepCourseValid | models/Course.js:5-78 | a valid course stays valid after appending a valid lecture, dropping lectures, or changing its counters |
| CourseModel.NewCourse | models/Course.js:57-66 | a new course has no lectures, 0 views and 0 videos, so its video count equals its lecture count |
| Auth.IsAuthenticated | middlewares/auth.js:8-13 | refused with 401 exactly when the token is missing or empty |
| Auth.AuthorizeAdmin | middlewares/auth.js:20-32 | passes exactly for admins; otherwise 403 naming the role |
| Auth.AuthorizeSubscribers | middlewares/auth.js:35-49 | refused with 403 exactly when the status is not "active" and the role is not admin |
| Auth.RunGuards | routes/courseRoutes.js:26-33 | a chain of role checks passes exactly when every check passes |
| Auth.Admit | routes/courseRoutes.js:19-33 | a chain admits exactly when a token is present (its decoding aside) and every role check passes; a missing token is refused with 401 |
| Auth.MissingTokenIsRefused | middlewares/auth.js:9-13 | without a token no route chain reaches its handler |
| Auth.AdminIsSubscriber | middlewares/auth.js:38 | an admin passes the subscriber check whatever its subscription |
| Auth.AdminCheckImpliesSubscriberCheck | middlewares/auth.js:21-38 | whoever passes the admin check passes the subscriber check |
| Auth.AdminReachesEveryHandler | routes/userRoutes.js:66-71 | an authenticated admin passes every chain of role checks |
| Auth.FirstRefusalWins | routes/courseRoutes.js:26-33 | a chain answers with the first check that refuses |
| Payments.PaymentValid | models/Payment.js:3-25 | a Payment row passes exactly when its payment id, subscription id and signature are present |
| Payments.PlanId | controllers/paymentController.js:19 | the `PLAN_ID` variable when it is set and non-empty, the default plan otherwise; never empty |
| Payments.ExpectedSignature | controllers/paymentController.js:60-65 | HMAC under the secret of the callback's payment id, "\|" and the stored subscription id, each read as "undefined" when missing |
| Payments.MissingIdsSignAsUndefined | controllers/paymentController.js:60-64 | a missing stored subscription id, or a missing payment id, is signed exactly as the text "undefined" |
| Payments.WithinRefundWindow | controllers/paymentController.js:121-125 | a cancellation within the first day after payment is refunded when the window has days; at or after the window's end, or with no days, nothing is |
| Payments.Gateway.Send | controllers/paymentController.js:116 | a request is appended to the gateway's log |
| Payments.BuySubscription | controllers/paymentController.js:10-46 | admins get 400 with no gateway call and no change; others cause exactly one create request (plan, notify 1, 12 cycles) and the returned id and status overwrite the user's subscription, with no existing-subscription check |
| Payments.PaymentVerification | controllers/paymentController.js:50-91 | the expected signature is HMAC(secret, paymentId "\|" stored id), a missing payment id read as "undefined"; a mismatch redirects to /paymentfail and changes nothing; a match without a payment id fails validation with no change; a match otherwise appends exactly one Payment row with the three request values, sets status "active" and redirects with the payment id as reference |
| Payments.CancelSubscription | controllers/paymentController.js:108-140 | the cancel request always goes out first; with no Payment row the handler throws after it; a refund is requested exactly when now - createdAt < days * 86400000; then the row is deleted, the subscription cleared and the message follows the refund flag |
| Payments.MissingPaymentIdExample | controllers/paymentController.js:62-79 | a callback without a payment id, signed over "undefined\|sub_1", is authentic and then fails the Payment schema: a validation error, no row |
| Payments.RepeatedCallbackExample | controllers/paymentController.js:50-140 | a callback accepted twice leaves two rows for one subscription; cancelling deletes one and clears the user's subscription, leaving the other |
| Payments.BuyOverActiveExample | controllers/paymentController.js:10-140 | buying over an active subscription replaces it and keeps the old row; the following cancel finds no row for the new subscription and throws |
| Stats.RecomputationsOwnTheirFields | controllers/userController.js:412-414 | the user recomputation leaves views and all earlier rows alone; the views recomputation leaves the user and subscription counts and earlier rows alone |
| Stats.RecomputationsCommute | controllers/courseController.js:265-267 | the two recomputations at the same instant give the same rows in either order |
| Stats.ChangesKeepChronology | server.js:27-34 | with a clock that does not go back, the monthly row and both recomputations keep the rows in creation order |
| Stats.NewestFirst | controllers/otherController.js:59 | the query returns the newest min(n, rows) rows, newest first |
| Stats.OpenMonthlySnapshot | server.js:27-34 | exactly one row with zero counters, created now, is appended |
| Dashboard.Quotient | controllers/otherController.js:102-104 | finite exactly for a non-zero divisor, and then times the divisor gives the dividend; over zero +Infinity, -Infinity or NaN by the dividend's sign |
| Dashboard.Hundredfold | controllers/otherController.js:102-104 | keeps the kind and the sign of its argument; scales a finite value by 100 |
| Dashboard.Negative | controllers/otherController.js:107-109 | false exactly for NaN, +Infinity and non-negative finite values |
| Dashboard.ZeroPads | controllers/otherController.js:72-78 | k zero records, none for k not positive |
| Dashboard.PaddedShape | controllers/otherController.js:61-79 | for n <= 12 fetched rows the series has 12 points: 12 - n zero records, then the rows in query order |
| Dashboard.PadSeries | controllers/otherController.js:61-79 | the push loop and the unshift loop build exactly the padded series |
| Dashboard.GetDashboardStats | controllers/otherController.js:57-125 | counts are the fields of point 11; with a zero previous subscription count: subscription % = count * 100, users/views % = count * 100 only over their own zero baseline and 0 otherwise, all flags true; otherwise each % = (curr - prev) / prev * 100 including the division by a zero baseline, and each flag is false exactly when its % is below 0; with no rows: counts 0, percentages 0, flags true |
| Dashboard.ReportedRowIsOldestFetched | controllers/otherController.js:59-84 | fed from the collection, point 11 is the oldest of the newest twelve rows and point 10 the next newer one or a zero record |
| Dashboard.DanglingElseExample | controllers/otherController.js:59-110 | on rows whose users fell from 100 a month ago to 80 now, with no subscriptions, the handler reports a 0% users change and a profit |
| Dashboard.IntendedOnFallingUsers | controllers/otherController.js:82-110 | on the same rows the intended dashboard reports 80 users, -20% and no profit |
| Dashboard.Growth | controllers/otherController.js:90-104 | over a zero baseline the count times 100; over a positive one negative exactly on a decline and zero exactly on no change |
| Dashboard.GrowthExamples | controllers/otherController.js:90-104 | 0 to 50 is 5000, 100 to 80 is -20, 0 to 0 is 0 |
| Dashboard.QuotientIsGrowth | controllers/otherController.js:102-104 | over a positive baseline the handler's `(curr - prev) / prev * 100` equals the intended growth |
| Dashboard.IntendedSeries | controllers/otherController.js:61-79 | the series ends with the newest fetched row, preceded by the one before it or a zero record |
| Dashboard.IntendedDashboard | controllers/otherController.js:82-110 | counts come from the newest row, and each flag over a positive baseline is true exactly when the metric did not fall |
| Dashboard.IntendedReportsLatestRow | controllers/otherController.js:59-84 | fed from the collection, the intended dashboard reports the latest row |
| ContactForms.Contact | controllers/otherController.js:9-30 | 400 "Please Fill All Fields" exactly when a field is missing; with all fields, a mail failure ends in an error and otherwise one email goes to the site address with the contact subject |
| ContactForms.CourseRequest | controllers/otherController.js:35-52 | 400 "Please Fill All Fields" exactly when a field is missing; with all fields, a mail failure ends in an error and otherwise one email goes to the site address with the request subject |
| UserController.Register | controllers/userController.js:15-45 | 400 on a missing field or file, 409 on a taken email, otherwise one new valid document with the hashed password appended; unique emails stay unique |
| UserController.Login | controllers/userController.js:49-66 | 400 on a missing field; the same 401 for an unknown email and a wrong password; success only with the user of that email whose password compares equal |
| UserController.ResetMail | controllers/userController.js:215-221 | an email to the given address with subject "Learnify Reset Password " whose text carries `FRONTEND_URL/resetpassword/<raw token>` right after the fixed opening sentence |
| UserController.ForgetPassword | controllers/userController.js:201-227 | 400 for an unknown email with no change; otherwise the user's fresh reset token is saved and the reset email for the raw token goes to the user's address; a mail failure after the save keeps the token and ends the request |
| UserController.AfterReset | controllers/userController.js:250-252 | the new password is set and both token fields are cleared, nothing else changes |
| UserController.ResetPassword | controllers/userController.js:231-261 | 400 unless a user holds the token's digest with an expiry later than now; a password failing the rule is not saved; otherwise the password is hashed and both token fields cleared |
| UserController.ResetTokenIsSingleUse | controllers/userController.js:239-254 | after a successful reset the same token matches no user |
| UserController.AddToPlaylist | controllers/userController.js:265-300 | a malformed id throws a CastError with no change; 404 for an unknown course, 409 for a course already listed, both with no change; otherwise exactly one {course, poster url} entry at the end |
| UserController.RemoveFromPlaylist | controllers/userController.js:304-341 | a malformed id throws a CastError with no change; 404 for an unknown course or one not listed, with no change; otherwise the order-preserving filter without that course |
| UserController.AddThenRemoveRestores | controllers/userController.js:287-331 | adding an unlisted course and removing it gives back the original playlist |
| UserController.AddKeepsCoursesDistinct | controllers/userController.js:276-290 | a playlist without repeated courses keeps that after an add |
| UserController.RemoveDropsExactlyThatCourse | controllers/userController.js:327-331 | after removal no entry for the course is left and every other entry remains |
| UserController.ToggledRole | controllers/userController.js:365-366 | the role always changes |
| UserController.ToggleTwiceRestores | controllers/userController.js:365-366 | toggling twice gives back the role |
| UserController.UpdateUserRole | controllers/userController.js:358-374 | a malformed id throws a CastError with no change; 404 for an unknown id with no change; otherwise only that user's role flips |
| UserController.ActiveCount | controllers/userController.js:410-413 | the number of active subscribers is at most the number of users |
| UserController.ActivationAddsOne | controllers/paymentController.js:81 | activating one inactive subscriber raises the active count by exactly one |
| UserController.CancellationRemovesOne | controllers/paymentController.js:131-132 | clearing one active subscription lowers the active count by exactly one |
| UserController.OnUserChange | controllers/userController.js:406-417 | without a Stats row it throws with no change; otherwise the latest row gets the user count and active count, stamped now, views untouched |
| CourseController.CreateCourse | controllers/courseController.js:52-81 | 400 when title, description, category or creator is missing; a missing file throws; otherwise one new valid course with default counters; video counts stay in agreement |
| CourseController.GetCourseLectures | controllers/courseController.js:85-102 | a malformed id throws a CastError with no change; 404 for an unknown course; otherwise views go up by exactly one and the lectures come back unchanged |
| CourseController.AddLecture | controllers/courseController.js:110-158 | a malformed id throws a CastError with no change; 404 for an unknown course; otherwise exactly one lecture at the end and the video count equal to the new length; video counts stay in agreement |
| CourseController.DeleteLecture | controllers/courseController.js:198-246 | a malformed id throws a CastError with no change; 404 for an unknown course; an unknown lecture throws before any save; a failed video destroy ends the request with no change; otherwise the order-preserving filter without that id, strictly shorter, and the video count equal to the new length |
| CourseController.FilterDropsMatch | controllers/courseController.js:231-235 | dropping a lecture id the list holds shortens the list |
| CourseController.RemovesExactlyThatLecture | controllers/courseController.js:231-235 | after deletion no lecture with the id remains and every other lecture does |
| CourseController.OneViewAddsOne | controllers/courseController.js:93 | one more view on one course raises the total views by exactly one |
| CourseController.SumViewsIgnoresLectures | controllers/courseController.js:140-149 | a lecture edit that keeps a course's views keeps the total views |
| CourseController.TotalViews | controllers/courseController.js:258-263 | the accumulator loop yields the sum of all courses' views |
| CourseController.OnCourseChange | controllers/courseController.js:253-270 | without a Stats row it throws with no change; otherwise the latest row gets the total views, stamped now, user counts untouched |

## Left out

- I/O. The requests to Razorpay, Cloudinary and the mail server are not
  modelled beyond the request log and the answer each handler is given.
  Cookies, JWT signing and verification, and response encoding are left
  out too.
- Concurrency. The change streams are modelled as one sequential
  recomputation each; interleavings are not modelled.
- MongoDB query semantics. A collection is a sequence in insertion order.
  "Latest Stats row" is the last row, so ties in `createdAt` and rows
  written out of order are not modelled (`Stats.Chronological` states when
  the two agree). `getAllCourses`' regular-expression search is left out.
- Floating point. Percentages are exact rationals. The refund-window
  variable is taken as a whole number of days, and `REFUND_TIME` left
  unset (which makes the refund time `NaN`) is not modelled.
- The Stats schema file. models/Stats.js is not part of this model. Its
  counters are taken to default to 0 and its `createdAt` to the creation
  time.
- UserModel.UserValid: does not model `validator.isEmail` on the email
  field. Emails are checked only for presence.
- Mongoose's `undefined`-key handling. `findOne({ email: undefined })` is
  modelled as a search for the empty email.
- Profile handlers. The logout, profile, change-password, update-profile,
  profile-picture, delete-profile, delete-user, get-all-users,
  delete-course and Razorpay-key handlers are not modelled. They read or
  replace whole documents with no logic beyond what the modelled handlers
  show.
- Payments.BuySubscription: requires that the authenticated user's id names a stored user, which the middleware guarantees for a live account; a token outliving its user is not modelled.
- Payments.PaymentVerification: requires that the authenticated user's id names a stored user, which the middleware guarantees for a live account; a token outliving its user is not modelled.
- Payments.CancelSubscription: requires that the authenticated user's id names a stored user, which the middleware guarantees for a live account; a token outliving its user is not modelled.
- UserController.AddToPlaylist: requires that the authenticated user's id names a stored user, which the middleware guarantees for a live account; a token outliving its user is not modelled.
- UserController.RemoveFromPlaylist: requires that the authenticated user's id names a stored user, which the middleware guarantees for a live account; a token outliving its user is not modelled.
- UserController.ResetPassword: validates only the password rule on save.
  The other stored fields are taken as already valid.
- CourseController.AddLecture: validates only the new lecture on save. The
  rest of the course is taken as already valid.
- Payments.PaymentVerification: the Payment row's `createdAt` is the
  handler's `now`.
- Auth.IsAuthenticated: models only the token-presence test. Decoding the
  token and loading the user are outside the model.
- Auth.Admit: a present token that `jwt.verify` rejects is refused by the
  server but admitted by the model, which sees only the token's presence.
- UserController.OnUserChange: the `User.watch` listener runs outside any
  request and outside `catchAsyncError`. Its throw on an empty Stats
  collection is an unhandled promise rejection, which under Node's
  default mode ends the server process. The model records it only as
  `Err(Thrown(..))` with no change.
- CourseController.OnCourseChange: the same holds for the `Course.watch`
  listener. Its throw on an empty Stats collection is an unhandled
  rejection that can end the process, and is modelled only as
  `Err(Thrown(..))` with no change.
- Dashboard.Growth: requires a non-negative baseline, which every stored counter is.
- Dashboard.IntendedDashboard: requires non-negative counts, which every stored counter is.

## Findings

| source | as written | input that shows it | evidently intended | confidence | as-written member | corrected member |
|---|---|---|---|---|---|---|
| controllers/otherController.js:90-110 | the `else` belongs to the subscription test alone, so when the previous subscription count is 0 the users and views percentages are never computed against their baselines and every profit flag stays true; when it is non-zero, a zero users or views baseline is divided by | rows newest first: 80 users now, 100 a month before, no subscriptions; the handler reports users percentage 0 and profit true | each metric compared with its own baseline: 80 users, -20%, profit false | high (not executed) | Dashboard.DanglingElseExample | Dashboard.IntendedDashboard |
| controllers/otherController.js:59-84 | the rows are fetched newest first and padded at the front without being reversed, so point 11, reported as current, is the oldest of the fetched rows | twelve or more monthly rows: the dashboard reports the row from eleven months ago as the current month | the series oldest first, ending with the newest row, which is reported as current | high (not executed) | Dashboard.ReportedRowIsOldestFetched | Dashboard.IntendedReportsLatestRow |
