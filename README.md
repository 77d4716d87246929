# inkToDoc: a Dafny model of its sequential core

inkToDoc turns a photographed page of handwritten notes into editable text.
A Flask service cuts the page into text lines and runs handwriting
recognition on each. A React front end uploads the image, lets the user
edit and format the text, and exports it as TXT, DOCX or PDF. An
Express/MongoDB back end registers users, logs them in with a JSON Web
Token, and serves the caller's profile.

This project models the parts of that system that are plain sequential
logic, one Dafny module per source file:

- `LineSegmentation` (backend/model.py) covers the scan of the row
  projection that finds text lines. `DetectLines` is the loop itself. It
  is proved to return exactly the maximal inked runs taller than ten rows,
  top to bottom, and `SegmentationUnique` shows that this determines the
  result.
- `UserDb` is the user collection, as an in-memory table keyed by id with
  the Mongoose calls the controllers make. `Tokens` covers `jwt.sign`.
  `Http` holds the JSON replies.
- `AuthController` and `UserController` (backend/controllers) cover the
  handlers: the order of their checks, their replies, and how each changes
  the table.
- `WordCount` and `Editor` (frontend/src/pages/ExtractedTextPage.jsx) cover
  the word count, the font-size lookup, the formatting toggles, and the
  TXT/DOCX export contents and file names.
- `Session` (frontend/src/context/UserContext.jsx) covers the client
  session: the current user, and `localStorage` as a key/value map.
  `isAuthenticated` is `UserSession.IsAuthenticated`, which holds exactly
  when `user` is set.
- `SignupForm` (frontend/src/pages/SignupPage.jsx) and `UploadPage`
  (frontend/src/pages/UploadPage.jsx) cover the form and page handlers as
  classes whose fields are the component state.

Parameters stand in for what the code gets from outside:

- the clock, when a token is signed;
- bcrypt's random salt;
- `process.env.JWT_SECRET`;
- `JSON.parse`;
- the object URL the browser creates for a picked file;
- how each network request settles.

The model follows the code as written, including these behaviours:

- `deleteAccount` always replies "User deleted", even when no record had
  the id.
- `updateProfile` does not check the new email against other records.
  `UserController.UpdateCanDuplicateEmail` shows that giving any record
  the non-empty email of another leaves two records with that email.
- backend/routes/user.js attaches no authentication middleware, and
  backend/server.js installs only `cors()` and `express.json()` before the
  user routes, so as wired `req.user` is never set. The caller's id is
  therefore an `Option`, and `None` (no `req.user`) leads to the handlers'
  500 "Server error" reply. As deployed, `getProfile`, `updateProfile` and
  `deleteAccount` always take that branch, so the client's
  `fetchUserProfile` (frontend/src/context/UserContext.jsx:30-42) always
  fails and logs the user out (`UserSession.ProfileFetched` with
  `FetchFailed`). The `Some` branches model the handlers as they would run
  behind a middleware that sets `req.user`.
- SignupPage.jsx posts `name`, `email` and `password` to
  `/api/users/register`. The back end mounts registration under
  `/api/auth` and requires `username`. The request's URL and body are not
  modelled; how the POST settles is a parameter. As wired it always
  settles as a 404 without a `message`, so the page shows "Server error
  occurred" (`ServerRejected(None)`); the `Succeeded` branch models the
  page against a server that serves that route.

## Model

| member | source | states |
|---|---|---|
| LineSegmentation.DetectLines | backend/model.py:22-33 | every returned band is a maximal run of rows with positive projection (the row before and the row after are blank or outside the image) and is taller than 10 rows; bands come top to bottom and neither overlap nor touch; every such run, including one reaching the last row and closed at the image height, is returned |
| LineSegmentation.SegmentLines | backend/model.py:22-35 | one full-width crop box per detected line, in order, so there are exactly as many boxes as lines and their rows form the segmentation |
| LineSegmentation.SegmentationUnique | backend/model.py:25-33 | two results that both meet the segmentation specification are equal, so each line appears exactly once and the result is determined by the projection |
| LineSegmentation.OrderedSameBandsEqual | backend/model.py:25-31 | two ordered sequences of non-empty bands holding the same bands are the same sequence |
| LineSegmentation.BlankPageHasNoLines | backend/model.py:23-33 | an all-zero projection has no lines |
| LineSegmentation.RunStartUnique | backend/model.py:26-28 | two maximal inked runs ending on the same row start on the same row |
| UserDb.HashPassword | backend/controllers/authController.js:23-30 | the hash stored for a new user accepts, under `comparePassword`, the password it was made from, whatever the salt |
| UserDb.WithoutPassword | backend/controllers/authController.js:118 | the public record keeps the id, username and email and has no password field |
| UserDb.ApplyFields | backend/controllers/userController.js:29-33 | `$set` writes exactly the supplied username and email; id and password are never changed |
| UserDb.FindByEmailFrom | backend/controllers/authController.js:73 | returns the first id in the range whose record has the email, and no id when none has it |
| UserDb.Database.FindOneByEmail | backend/controllers/authController.js:17 | `findOne({ email })` returns the oldest record with that email, and nothing exactly when no record has it |
| UserDb.Database.FindById | backend/controllers/authController.js:118 | `findById` finds a record exactly when the id is in the table, and returns that record |
| UserDb.Database.Save | backend/controllers/authController.js:23-30 | `save` adds one record under a fresh id with the given username and email and the hashed password; no other record changes |
| UserDb.Database.FindByIdAndUpdate | backend/controllers/userController.js:29-33 | the record with the id becomes the `$set` result and is returned; an absent id changes nothing |
| UserDb.Database.FindOneAndRemove | backend/controllers/userController.js:46 | afterwards the table is the old table without that id |
| Tokens.Sign | backend/controllers/authController.js:34-51 | signing succeeds exactly when the secret is set and non-empty; the token carries the user's id and expires one hour (3600 s) after signing |
| Http.TokenReply | backend/controllers/authController.js:40-51 | the `jwt.sign` callback answers 200 with the token when signing succeeds, else 500 "Error generating token" |
| AuthController.Register | backend/controllers/authController.js:6-59 | a missing or empty field gives 400 "Please provide all required fields", and a taken email gives 400 "User already exists" whatever the username and password; both leave the table unchanged; otherwise exactly one record with the given username, email and hashed password is added under a fresh id, and the reply carries a token for that id expiring in 1h (or 500 when signing fails, with the record already saved); a table with unique emails keeps them unique |
| AuthController.Login | backend/controllers/authController.js:62-113 | a missing email or password gives 400 "Please provide both email and password"; an unknown email and a wrong password give the same 400 "Invalid credentials"; a 200 reply means a stored record has that email and password and the token carries its id; with unique emails, login succeeds iff such a record exists; the table is not modified |
| AuthController.GetCurrentUser | backend/controllers/authController.js:116-130 | an absent id gives 404 "User not found"; otherwise 200 with the record without its password |
| UserController.GetProfile | backend/controllers/userController.js:4-12 | 200 with the caller's record without its password, or `null` when there is none |
| UserController.ProfileFields | backend/controllers/userController.js:18-22 | a field enters the update only when it is supplied and non-empty, and then with the supplied value |
| UserController.UpdateProfile | backend/controllers/userController.js:15-35 | an absent id gives 404 "User not found" and changes nothing; otherwise only the caller's record changes: username and email take the supplied non-empty values, an empty or missing field keeps the stored value, id and password stay, and the reply is the updated record without its password |
| UserController.DeleteAccount | backend/controllers/userController.js:38-52 | afterwards no record has the caller's id and every other record is unchanged; the reply is "User deleted" whether or not the record existed |
| UserController.UpdateCanDuplicateEmail | backend/controllers/userController.js:15-35 | for every table and every two distinct records, an update giving one record the other's non-empty email leaves two records with that email: the new email is not checked |
| WordCount.TrimStart | frontend/src/pages/ExtractedTextPage.jsx:158 | removes exactly the leading whitespace: the result is a suffix, starts with a non-whitespace character or is empty, and everything removed is whitespace |
| WordCount.TrimEnd | frontend/src/pages/ExtractedTextPage.jsx:158 | removes exactly the trailing whitespace, in the same sense as `TrimStart` |
| WordCount.Trim | frontend/src/pages/ExtractedTextPage.jsx:158 | `trim()` leaves the contiguous part of the text with only whitespace before and after it, and that part is empty or begins and ends with a non-whitespace character |
| WordCount.SplitFrom | frontend/src/pages/ExtractedTextPage.jsx:158 | `split(/\s+/)` gives at least one piece, and no piece contains whitespace |
| WordCount.DropWord | frontend/src/pages/ExtractedTextPage.jsx:158 | removes exactly the leading run of non-whitespace characters: everything removed is non-whitespace and the suffix left is empty or starts with whitespace |
| WordCount.Count | frontend/src/pages/ExtractedTextPage.jsx:158 | the page's count (`trim()`, then `split(/\s+/).length`, or 0 for a blank text) equals the number of maximal runs of non-whitespace characters |
| WordCount.CountZeroIffBlank | frontend/src/pages/ExtractedTextPage.jsx:158 | the count is 0 exactly when the text is all whitespace |
| WordCount.CountAtMostLength | frontend/src/pages/ExtractedTextPage.jsx:158 | the count never exceeds the text length |
| WordCount.SplitCountsWords | frontend/src/pages/ExtractedTextPage.jsx:158 | `split(/\s+/)` of a string ending in a non-whitespace character gives one piece per word, plus an empty first piece when the string starts with whitespace |
| Editor.FontSize | frontend/src/pages/ExtractedTextPage.jsx:142-149 | "small" maps to 0.875rem and "large" to 1.25rem; every other value, "medium" included, maps to 1rem |
| Editor.Toggle | frontend/src/pages/ExtractedTextPage.jsx:151-156 | the named flag is negated and the other two flags are unchanged |
| Editor.ToggleTwice | frontend/src/pages/ExtractedTextPage.jsx:151-156 | toggling the same flag twice restores the formatting |
| Editor.ToggleCommutes | frontend/src/pages/ExtractedTextPage.jsx:151-156 | two toggles give the same formatting in either order |
| Editor.Wrap | frontend/src/pages/ExtractedTextPage.jsx:127-129 | the text lies between two copies of the marker, and the length grows by twice the marker length |
| Editor.Unwrap | frontend/src/pages/ExtractedTextPage.jsx:127-129 | whenever it returns a text, wrapping that text gives back the input |
| Editor.UnwrapWrap | frontend/src/pages/ExtractedTextPage.jsx:127-129 | unwrapping a wrapped text returns it |
| Editor.TxtContent | frontend/src/pages/ExtractedTextPage.jsx:126-129 | the TXT content grows by 4 for bold, 2 for italic and 2 for underline; with no flags it is the text itself; underline is the outermost marker, then italic; removing the markers in reverse order gives back the text |
| Editor.StyleFor | frontend/src/pages/ExtractedTextPage.jsx:105-108 | font-size is the lookup's value; font-weight is bold iff bold is set, font-style italic iff italic is set, text-decoration underline iff underline is set, and otherwise normal, normal and none |
| Editor.DocxContent | frontend/src/pages/ExtractedTextPage.jsx:100-116 | the DOCX document holds the text verbatim, between a head that depends only on the style and a fixed tail |
| Editor.FileName | frontend/src/pages/ExtractedTextPage.jsx:97-134 | every export downloads as `extracted-notes.` followed by the chosen format |
| Editor.FileNameInjective | frontend/src/pages/ExtractedTextPage.jsx:97-134 | different formats get different file names |
| Editor.Upper | frontend/src/pages/ExtractedTextPage.jsx:138 | `toUpperCase` on ASCII: the same length, with lower-case letters mapped to upper case and everything else kept |
| Editor.EditorPage.constructor | frontend/src/pages/ExtractedTextPage.jsx:33-44 | the page starts with DOCX export, medium font, no formatting and no snackbar |
| Editor.EditorPage.HandleFormatChange | frontend/src/pages/ExtractedTextPage.jsx:151-156 | the formatting state becomes the toggle of the old one; nothing else changes |
| Editor.EditorPage.HandleExport | frontend/src/pages/ExtractedTextPage.jsx:74-140 | the download is named after the format; DOCX carries the styled HTML as `application/msword`; TXT carries the marked-up text as `text/plain` and reads back to the text; the snackbar then reports the format in upper case |
| Session.Stringify | frontend/src/context/UserContext.jsx:47 | `JSON.stringify` gives "null" exactly for a missing user, and a braced object text for a present one |
| Session.UserSession.IsAuthenticated | frontend/src/context/UserContext.jsx:56-58 | the session is authenticated exactly when it holds a user value |
| Session.UserSession.constructor | frontend/src/context/UserContext.jsx:7-8 | a new session has no user and is loading |
| Session.UserSession.Login | frontend/src/context/UserContext.jsx:45-48 | the user becomes the given data, the session is authenticated, and its serialisation is stored under "user"; other keys are untouched |
| Session.UserSession.Logout | frontend/src/context/UserContext.jsx:50-54 | there is no user afterwards and the session is not authenticated; "user" and "token" are removed and every other key is untouched |
| Session.UserSession.Restore | frontend/src/context/UserContext.jsx:10-28 | loading is false in every branch; a user is restored, and a profile request started with the token, only when both keys hold a non-empty value and the stored user parses; a parse error removes both keys; otherwise nothing changes |
| Session.UserSession.ProfileFetched | frontend/src/context/UserContext.jsx:30-43 | fresh data replaces the user and its stored serialisation; a failed request logs out |
| SignupForm.Utf16Length | frontend/src/pages/SignupPage.jsx:29 | `password.length` is the number of code units in the UTF-16 encoding (one per BMP character, a surrogate pair otherwise), so between one and two per character |
| SignupForm.LookupIn | frontend/src/pages/SignupPage.jsx:44 | a field is found exactly when the object has a field of that name, and the value found is that field's value (an object's keys are distinct) |
| SignupForm.TokenToStore | frontend/src/pages/SignupPage.jsx:44 | the stored token is the value of a "token" field when the response has one, and the string "undefined" when it has none |
| SignupForm.FailureMessage | frontend/src/pages/SignupPage.jsx:53-63 | a server reply shows its message when it has a non-empty one, else "Server error occurred"; no response and a setup failure show their own fixed messages |
| SignupForm.SignupPage.constructor | frontend/src/pages/SignupPage.jsx:9-14 | the form starts empty, with no error and not loading |
| SignupForm.SignupPage.HandleSubmit | frontend/src/pages/SignupPage.jsx:18-67 | the request is made iff the passwords are equal and at least 6 long; a mismatch shows "Passwords do not match", even when the password is also too short; a short password shows the length error; in both cases loading and the session are untouched; after a request loading is false; success clears the error, stores the token and logs the returned data in; failure shows the failure message and leaves the session alone |
| UploadPage.SearchFrom | frontend/src/pages/UploadPage.jsx:25 | the search from an index succeeds exactly when the pattern occurs at or after that index |
| UploadPage.Accepts | frontend/src/pages/UploadPage.jsx:25 | a file is accepted iff its type contains "image" or its name ends in .jpg, .jpeg, .png or .gif |
| UploadPage.UpperCaseExtensionRejected | frontend/src/pages/UploadPage.jsx:25 | the extension test is case-sensitive: "NOTES.JPG" with no type is rejected |
| UploadPage.Processing.constructor | frontend/src/context/ProcessingContext.jsx:14-15 | the shared state starts not processing, with empty text |
| UploadPage.UploadPage.constructor | frontend/src/pages/UploadPage.jsx:15-17 | the page starts with no file, no preview and the dialog closed |
| UploadPage.UploadPage.HandleFileChange | frontend/src/pages/UploadPage.jsx:19-29 | when logged out, the login dialog opens and the file and preview stay; when logged in, an accepted file becomes the selection with its preview; a missing or rejected file changes nothing |
| UploadPage.UploadPage.HandleSelectImage | frontend/src/pages/UploadPage.jsx:31-37 | the picker opens iff logged in; otherwise the login dialog opens |
| UploadPage.UploadPage.StartExtract | frontend/src/pages/UploadPage.jsx:39-42 | without a selected file nothing happens, and `processing` in particular is not set; with one, `processing` becomes true and the request starts |
| UploadPage.UploadPage.FinishExtract | frontend/src/pages/UploadPage.jsx:43-66 | `processing` is false once the request settles, on success or failure; the extracted text is published only on success |
| UploadPage.UploadPage.HandleLoginClick | frontend/src/pages/UploadPage.jsx:69-72 | the login dialog is closed |

## Left out

- Handwriting recognition is not modelled. This covers TrOCR, torch and transformers (backend/model.py:3-13, 38-52), the Otsu threshold and row sum (backend/model.py:19-21), and the image resize in backend/utils.py. They are numeric work in foreign libraries, so the model starts from the row projection.
- The cropping itself is not modelled. `image.crop` is PIL's; the model produces the crop rectangles.
- The PDF export is not modelled. jsPDF font metrics, `splitTextToSize` and text widths are floating-point layout, so `HandleExport` gives only the PDF's file name.
- bcrypt is not modelled. A stored hash keeps the password itself and a salt.
- UserDb.ComparePassword: modelled as equality of the candidate with the stored password. bcrypt compares only the first 72 bytes of a password, so two long passwords sharing those bytes both match; that truncation is not modelled.
- JWT signatures and their verification are not modelled (RFC 7519, inside jsonwebtoken). A token is its user id and its expiry. The authentication middleware that verifies tokens and sets `req.user` is not part of this model.
- MongoDB and Mongoose are not modelled. Connection failures, cast errors on malformed ids, and schema validation are left out, and so are the 500 replies they would cause. models/User.js is not part of this model, so a unique index on email, if the schema has one, is not either.
- UserDb.FindByEmailFrom: `findOne({ email })`'s choice among several records with the same email is modelled as the smallest id. MongoDB does not promise any order; the choice decides which password `Login` checks once `updateProfile` has created a duplicate.
- The check-then-insert race in `register` is left out. It is a concurrency matter, and the model is sequential.
- The `error` detail that 500 replies carry in development mode is left out, and so is console logging.
- The HTTP wiring is left out: Express, CORS, the global error handler, the routes, and the Flask `/upload` endpoint.
- Browser effects are left out: the auto-save timer, the clipboard, Blob and object-URL downloads, navigation, and the axios requests. Each request's settled outcome is a parameter of the handler that receives it.
- `Session.Stringify` writes a flat object of string fields and does not escape quotes. `JSON.parse` is a parameter.
- Rendering-only components are left out: Header.jsx, UserProfileMenu.jsx, AuthButtons.jsx and the page markup. LoginPage.jsx is left out too: its error mapping is the same as the sign-up page's.
- Request-body fields are strings or absent. Other JSON values (numbers, booleans, objects), whose truthiness differs, are not modelled.
- AuthController.Login: the "succeeds iff a record with that email and password exists" form is stated only for tables with unique emails. `findOne` checks only the first record with the email, and `updateProfile` can create duplicates.
- WordCount: characters are Unicode scalar values, whereas JavaScript strings are UTF-16. Lone surrogates cannot be expressed; no whitespace character is affected.
