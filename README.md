# calenderBackend core in Dafny

A model of the business logic of a small remark-keeping backend. Users
register, log in and maintain a profile with an optional image. Each user
owns "remarks": dated notes with contact fields, amounts, a done flag and a
priority. The model covers the two controllers (remarks, users) and the two
document schemas (Remark, User). The document store is a pair of in-memory
collections, each a `map` from id to record. The upload directory is a set
of paths.

Modules:

- `Js` (`js.dfy`): the parts of JavaScript the handlers rely on.
  - Optional request fields: `None` stands for a key the body does not carry.
  - String and number truthiness.
  - `String.prototype.trim`, with the full whitespace set.
  - An ASCII `toLowerCase`.
  - The HTTP statuses the handlers send.
- `RemarkSchema` (`remark_schema.dfy`): the Remark record.
  - The three `required` paths and the `trim` setter on content.
  - The `createdAt` default.
  - `RemarkCollection`, a class whose `remarks` map the handlers create in, save to and delete from.
- `RemarkController` (`remark_controller.dfy`): the mutating remark handlers.
  - createRemark, with its defaults.
  - The ownership gate shared by update, delete and toggle: 404 comes before 403.
  - The partial-update merge with its two overwrite rules (truthy and defined).
  - Toggling the done flag.
- `RemarkQueries` (`remark_queries.dfy`): the read-only remark handlers.
  - The four list handlers, each a filter over the caller's remarks followed by a descending sort.
  - The financial summary, a fold over the caller's remarks.
  - Every result is stated so that it does not depend on the order in which the collection is enumerated.
- `UserSchema` (`user_schema.dfy`): the User record.
  - The setters (`trim`, `lowercase`), the `required` and `minlength` validators, and the unique index on email.
  - The pre-save `updatedAt` hook, `comparePassword` and `toJSON`.
  - `UserCollection`, the class that holds the users.
- `UserController` (`user_controller.dfy`): the user handlers.
  - Register, login and read/update profile.
  - The two profile-image handlers, with `deleteOldImage` acting on a `FileSystem` object.
  - The response views have no password field at all.

Email lookups (`findOne({ email })`) are modelled as going through the email
path's setters. The request value is therefore trimmed and lowercased before
it is compared.

The profile-update collision check compares the raw request value with the
stored email, but it looks up the normalised value. So re-sending one's own
email in another letter case is refused with 400 "Email already in use"
(`OwnEmailRecasedIsRejected`).

## Model

| member | source | states |
|---|---|---|
| Js.Trim | models/Remark.js:13-17 | the `trim` setter: the result is the input with a whitespace-only prefix and a whitespace-only suffix cut off, has no whitespace at either end, is empty exactly when the input is all whitespace, and leaves an already trimmed string unchanged |
| Js.Lower | models/User.js:14-19 | the `lowercase` setter: same length; at every position a capital A–Z becomes its small letter (code point + 32) and every other character is kept; no capital is left |
| Js.Utf16Length | models/User.js:22-26 | the length `minlength` measures: at least the number of characters and at most twice it, and equal to it when no character lies above U+FFFF |
| RemarkSchema.MissingPaths | models/Remark.js:4-17 | the `required` validators fail for a missing user, a missing date, and content that is missing or trims to nothing, and only for those |
| RemarkSchema.Instantiate | models/Remark.js:3-22 | `Remark.create` fails exactly when a required path is missing. On success the record is as given, except that content is trimmed and createdAt is the creation time |
| RemarkSchema.RemarkCollection.Create | controllers/remarkController.js:23-36 | stores the validated record under a fresh id, or leaves the collection unchanged when validation fails; the collection invariant holds afterwards |
| RemarkSchema.RemarkCollection.Save | controllers/remarkController.js:131 | `save` writes the document exactly when it validates, and otherwise leaves the collection unchanged |
| RemarkSchema.RemarkCollection.Delete | controllers/remarkController.js:153 | `deleteOne` removes exactly that id |
| RemarkController.CreationDraft | controllers/remarkController.js:23-36 | owner = caller; done is false unless given; falsy amounts become 0; a falsy priority becomes "medium"; every other field is passed through |
| RemarkController.NewRemark | controllers/remarkController.js:23-36 | creation fails exactly when the date or the content is missing or blank (the owner is always set). On success the record belongs to the caller, has the defaults and has trimmed content |
| RemarkController.Authorize | controllers/remarkController.js:102-110 | 404 exactly when the id is unknown, 403 exactly when the record exists and belongs to someone else, 200 otherwise |
| RemarkController.MergeRemark | controllers/remarkController.js:113-129 | the update keeps id, owner, createdAt and pendingAmount. name, mobileNumber, fromAddress, toAddress and priority take the body's value exactly when it is truthy and keep the old one otherwise; content takes the trimmed body value when truthy and keeps the old one otherwise; date takes the body's value exactly when it is truthy (not 0) and keeps the old one otherwise. specialNote, totalAmount, advanceAmount and done take the body's value when present and keep the old one when absent. An empty body changes nothing |
| RemarkController.MergeIdempotent | controllers/remarkController.js:113-129 | applying the same update twice equals applying it once |
| RemarkController.MergeComposes | controllers/remarkController.js:113-129 | two updates in a row equal one update whose keys come from the later body when present there |
| RemarkController.FalsyValuesSplitByField | controllers/remarkController.js:113-129 | "", 0 and false keep the old values in the truthy-overwrite fields, date included, but are written in the defined-overwrite fields |
| RemarkController.Toggled | controllers/remarkController.js:175 | the toggle negates done and changes no other field |
| RemarkController.ToggleInvolution | controllers/remarkController.js:175 | toggling twice restores the record |
| RemarkController.CreateRemark | controllers/remarkController.js:6-42 | 201 with the stored record, or 500 with the collection unchanged |
| RemarkController.UpdateRemark | controllers/remarkController.js:86-136 | the gate's 404/403 leave the store unchanged. Otherwise the merged record is saved (200), or the save fails validation (500, store unchanged) |
| RemarkController.DeleteRemark | controllers/remarkController.js:141-158 | the status is the gate's. On 200 exactly the target is removed. Every other record is unchanged in every case |
| RemarkController.ToggleRemarkDone | controllers/remarkController.js:163-182 | the status is the gate's. On 200 the stored record is the toggled one, and the save cannot fail |
| RemarkQueries.Select | controllers/remarkController.js:76 | the `find` filter: a record is kept exactly when it is in the input, is the caller's and meets the criterion. No duplicates are introduced |
| RemarkQueries.Sort | controllers/remarkController.js:76 | `sort({ date: -1 })` / `sort({ createdAt: -1 })`: the output is sorted descending and is a permutation of the input |
| RemarkQueries.GetAllRemarks | controllers/remarkController.js:74-81 | exactly the caller's records, each once, latest date first |
| RemarkQueries.GetRemarksByDate | controllers/remarkController.js:57-63 | exactly the caller's records with start ≤ date ≤ end, each once, latest creation first |
| RemarkQueries.GetRemarksByStatus | controllers/remarkController.js:187-200 | exactly the caller's records whose done flag equals (token == "done"), latest date first |
| RemarkQueries.GetRemarksByPriority | controllers/remarkController.js:205-222 | 400 exactly for a token outside low/medium/high; otherwise exactly the caller's records with that priority, latest date first |
| RemarkQueries.PriorityRejectedWithoutLookup | controllers/remarkController.js:209-211 | the rejection of an unknown token is the same whatever the store and the caller |
| RemarkQueries.Tally | controllers/remarkController.js:231-244 | the `$group` fold: completed + pending counts equal the number of records |
| RemarkQueries.TallySameMembers | controllers/remarkController.js:229-245 | under exact integer arithmetic, the summary does not depend on the order in which the records are enumerated |
| RemarkQueries.GetFinancialSummary | controllers/remarkController.js:227-253 | the caller's summary; all zeros when the caller owns no record |
| RemarkQueries.TallyCountsStatus | controllers/remarkController.js:237-242 | completedRemarks counts the done records and pendingRemarks the not-done ones |
| RemarkQueries.SummaryOfListedRemarks | controllers/remarkController.js:229-236 | the summary sums exactly the records getAllRemarks lists |
| RemarkQueries.SummaryCountsStatusLists | controllers/remarkController.js:237-242 | completedRemarks and pendingRemarks are the lengths of the "done" and not-done status lists |
| RemarkQueries.SummaryIgnoresOtherUsers | controllers/remarkController.js:230 | other users' records have no effect on the caller's summary |
| UserSchema.Normalize | models/User.js:14-19 | the email setters: the result is a whitespace-cut slice of the input with its capitals lowercased; it is trimmed and lowercase, a normalised email is left as it is, and the result is empty exactly for blank input |
| UserSchema.Errors | models/User.js:3-26 | the four `required` paths fail exactly when empty, and the password fails exactly when its UTF-16 length is below 6 |
| UserSchema.AstralPasswordLongEnough | models/User.js:22-26 | a password of three characters above U+FFFF passes `minlength: 6`, since JavaScript counts six code units |
| UserSchema.NewDocument | models/User.js:3-43 | a new document holds the trimmed names, the normalised email and the password as given, "" for every path not given (so `required` rejects it), no image, no image id, and createdAt = updatedAt = now |
| UserSchema.PreSave | models/User.js:46-49 | the hook sets updatedAt to now and changes nothing else |
| UserSchema.Persist | models/User.js:3-49 | save fails exactly on a validation error or on an email held by another user (validation first). On success the document is written with updatedAt = now |
| UserSchema.PersistKeepsIndex | models/User.js:17 | writing a successfully saved document keeps every email unique |
| UserSchema.ComparePassword | models/User.js:53-55 | true exactly when the candidate equals the stored password |
| UserSchema.ToJSON | models/User.js:58-62 | the serialised user carries the modelled paths (id, names, email, both image paths, both timestamps) unchanged, and has no password field |
| UserSchema.ToJSONForgetsOnlyPassword | models/User.js:58-62 | two users serialise alike exactly when they differ at most in the password |
| UserSchema.UserCollection.Create | controllers/userController.js:37-42 | `User.create` stores the saved document under a fresh id, or nothing on failure; emails stay unique |
| UserSchema.UserCollection.Save | controllers/userController.js:169 | `save` on a stored user writes the saved document exactly when the save succeeds |
| UserController.AuthView | controllers/userController.js:45-55 | the register/login data: the user's id, firstName, lastName, email, profileImage and createdAt, no updatedAt, a token for the user's id, and no password |
| UserController.UpdatedView | controllers/userController.js:171-183 | the profile-update data: the user's id, firstName, lastName, email, profileImage, createdAt and updatedAt, and a token for the user's id |
| UserController.ImageView | controllers/userController.js:298-310 | the image-deletion data: the user's id, firstName, lastName, email, profileImage, createdAt and updatedAt, and no token |
| UserController.ViewsOmitPassword | controllers/userController.js:45-55 | every response is the same whatever the stored password |
| UserController.FindByEmail | controllers/userController.js:87 | `findOne({ email })` finds a user exactly when one holds the normalised email; with unique emails it is that user |
| UserController.Unlinked | controllers/userController.js:14-18 | only a truthy path is removed, and nothing else |
| UserController.UnlinkedIdempotent | controllers/userController.js:14-18 | unlinking twice is unlinking once |
| UserController.DeleteOldImage | controllers/userController.js:14-18 | the file set afterwards is the set with that path unlinked |
| UserController.RegisterUser | controllers/userController.js:23-69 | 400 with no user added when the email is held; else 201 with the new user's view, or 500 with nothing added |
| UserController.RegistrationNeverHitsIndex | controllers/userController.js:28-42 | after the lookup passes, creation can fail only by validation and never by the unique index |
| UserController.LoginUser | controllers/userController.js:74-114 | 400 exactly for a falsy email or password; every other failure is 401; success exactly when some user holds the normalised email with that password |
| UserController.LoginRejectsAlike | controllers/userController.js:87-107 | an unknown email and a wrong password get the same answer |
| UserController.GetUserProfile | controllers/userController.js:119-140 | 404 exactly for an unknown caller; otherwise exactly the `toJSON` of the caller's stored document |
| UserController.ProfileHidesPassword | controllers/userController.js:121 | changing the stored password changes nothing the profile shows |
| UserController.ProfilePatch | controllers/userController.js:150-167 | names and password change only on a truthy value. The email changes only when truthy and different as sent, and 400 when somebody holds it. Id, timestamps and image are unchanged. An empty body changes nothing |
| UserController.OwnEmailRecasedIsRejected | controllers/userController.js:154-161 | re-sending one's own email in another letter case or with surrounding spaces is refused with 400 |
| UserController.PatchNeverHitsIndex | controllers/userController.js:154-169 | once the collision check passes, the save is never refused by the unique index |
| UserController.ApplyProfileFields | controllers/userController.js:150-167 | the step-by-step assignments produce the document ProfilePatch describes, with setters applied |
| UserController.UpdateUserProfile | controllers/userController.js:145-196 | 404 with the store unchanged; the 400 collision with the store unchanged; otherwise 200 with the saved document, or 500 with the store unchanged |
| UserController.WithUpload | controllers/userController.js:222-224 | an uploaded file's path replaces profileImage and nothing else |
| UserController.UpdateUserProfileImage | controllers/userController.js:201-274 | 404 unlinks the upload. The old image is unlinked before the email check, so on 400 it is gone while the stored user still names it. A failed save also unlinks the upload |
| UserController.WithoutImage | controllers/userController.js:293-295 | both image fields become null, updatedAt becomes now, and nothing else changes |
| UserController.DeleteUserProfileImage | controllers/userController.js:279-318 | 404, or 200. With an image, the file is unlinked and the cleared document is saved (the save cannot fail); without one, nothing changes |

## Left out

- Token signing is not modelled: a token is reduced to the id it is issued for. No secret, no expiry.
- Routing, CORS, environment configuration and the database connection are left out. Two consequences are not visible in the model:
  - the remark routes register no route for getRemarksByPriority or getFinancialSummary;
  - the user routes name a forgotPassword handler that the controller does not define, and use `multer` without requiring it.
- The upload pipeline (multer, its size and type limits) and the real file system are left out. An upload is only the path it was stored under, and the directory is a set of paths.
- Date parsing and the local-time `setHours` window of getRemarksByDate are left out. The window comes in as two integer bounds, and a request date is an optional integer, 0 being its one falsy value.
- The email format regular expression is not modelled: it could only add one more validation failure (500).
- Concurrency is left out: a handler runs atomically, so the read-then-write race between two handlers is not modelled.
- JSON `null` in a request body is not modelled. Neither are ObjectId cast errors, or database failures other than validation and the unique index.
- Schema drift is modelled as the controller sees it: the Remark record carries the fields the controller writes, although the schema declares only user, date, content and createdAt. Under a strict schema those extra fields would not be stored.
- No code computes pendingAmount from totalAmount − advanceAmount: the summary only reads it, and nothing writes it. priority is checked against low/medium/high only by getRemarksByPriority. Remarks have no updatedAt.
- UserSchema.ToJSON: Mongoose's `__v` version key, which `toObject()` keeps and getUserProfile therefore returns, is not modelled.
- The `_id: null` key of the aggregate's result object is not modelled.
- The 400 "Invalid user data" branch of registerUser is not modelled: `User.create` either returns a document or throws.
- Js.Lower: lowercases ASCII letters only; `toLowerCase` also maps non-ASCII letters.
- RemarkSchema.RemarkCollection.Create: ids come from a counter in the collection, standing in for ObjectId generation.
- RemarkQueries.Tally: totalAmount, advanceAmount and pendingAmount are integers, whereas JavaScript numbers are IEEE doubles. Fractions, NaN, non-numeric values and -0 (falsy, so `|| 0` turns it into 0) are not modelled, and `$sum` is exact addition without rounding. TallySameMembers' order-independence therefore holds only under exact arithmetic; with doubles, summing in another order can round differently.
- RemarkController.CreationDraft and RemarkController.MergeRemark: the amounts they write are the same integers. The `|| 0` default therefore replaces only 0 and a missing value, and not NaN or -0.
- RemarkQueries.Sort: the order of records with equal keys is not specified, since the database promises none either.
- RemarkQueries.GetAllRemarks and the other list handlers and GetFinancialSummary are ghost functions, because enumerating a map's entries needs a choice. Their results are stated up to that order.
- UserController.RegisterUser: `findOne({ email: undefined })` is modelled as matching nobody, so a body without an email goes on to creation and fails validation (500); the model does not decide which document an unconstrained query would return.
- UserController.LoginUser: success implies matching credentials for every store. The converse is stated only for stores with unique emails, which is what the unique index keeps.
