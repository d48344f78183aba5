# AgroLens soil-analysis app: a verified Dafny model of its core

AgroLens lets a farmer photograph a soil sample and get advice in one of two ways:
- a structured AI analysis (`/ask/ai`);
- a conversational answer (`/chat`).

This project models four parts of the app in Dafny 4.11 and proves properties about each:

- **The upload wizard** (`frontend/src/components/UploadPage.jsx`), in `upload_wizard.dfy` and `request_builder.dfy`.
  - The component is the class `UploadPage`. Its fields are the component's state variables, and each event handler is one method.
  - Each method states the component's whole new state.
  - The browser services are not called. What they deliver becomes the parameters of the event that receives it: the file picker, the file reader's data URL, geolocation, `localStorage`, the HTTP outcome and the clock.
  - The request a submission sends is built by a pure function:
    - the endpoint;
    - the JSON body, with empty coordinates coerced to `null`;
    - the synthesised chat message;
    - the Authorization header.
- **The contact form** (`frontend/src/components/ContactUs.jsx`), in `contact_form.dfy`.
  - The validator is a function over the form. It checks that the required fields are non-blank after JavaScript `trim`, and that a non-blank e-mail matches the unanchored pattern `/\S+@\S+\.\S+/`.
  - The component state is the class `ContactPage`. The change and submit handlers and the two timer callbacks are its methods.
- **The backend helpers** (`agrolens-backend/app/main.py`), in `query_classifier.dfy` and `user_store.dfy`.
  - The keyword classifier `_classify_query_type` is an ordered rule table.
  - The `users` and `ai_responses` collections are modelled as sequences of documents. `find_one` returns the first document that matches, and MongoDB rejects a duplicate `_id` on insert.
  - Each handler is a function. The class `Database` holds the collections, and its writer methods are specified by those functions.
- **The pydantic declarations** (`agrolens-backend/models.py`), in `field_constraints.dfy`. These are:
  - the `SoilTexture` enumeration;
  - range and length constraints, written as validating constructors.

The string machinery shared by these parts is in `text.dfy`:
- JavaScript whitespace, `trim` and `split`;
- Python substring containment and `lower`.

`common.dfy` holds `Option` and `Result`.

The model follows the code as written:
- `resetForm` keeps the chosen mode;
- only HTTP status 200 leads to the result step;
- the results are tagged with the mode read when the submission started, even if the user has since gone back and chosen the other mode;
- the chat message's location clause tests only `lat`;
- changing mode does not clear the inputs.

The backend is modelled as written, not as a running service:
- `main.py` cannot be imported as it stands. At line 373 a `"""` closes the f-string opened at line 365, and the text that follows is read as code, which is a syntax error. So no handler in the module can run.
- `main.py` declares its own `UserCreate` model, with no length limits, and never imports `models.py`. The constraints in `field_constraints.dfy` are what `models.py` declares; nothing in `main.py` applies them.
- The classifier is modelled as the function `_classify_query_type` defines (main.py:523-540).

## Model

| member | source | states |
|---|---|---|
| RequestBuilder.ModeName | frontend/src/components/UploadPage.jsx:34 | the mode's string is "ai" exactly for the analysis mode |
| RequestBuilder.DataUrlPayload | frontend/src/components/UploadPage.jsx:51 | the stored payload never contains a comma, and it is empty when the data URL has no comma |
| RequestBuilder.DataUrlRoundTrip | frontend/src/components/UploadPage.jsx:47-53 | for a `data:<type>;base64,<payload>` URL, the payload taken out of it is exactly the base64 text put in |
| RequestBuilder.OrNull | frontend/src/components/UploadPage.jsx:119-120 | `value \|\| null` sends null exactly for an empty coordinate, never sends "", and a non-empty value reads back verbatim |
| RequestBuilder.Endpoint | frontend/src/components/UploadPage.jsx:112-114 | the analysis mode posts to `/ask/ai` and the chat mode to `/chat`, and each URL belongs to exactly one mode |
| RequestBuilder.ChatMessage | frontend/src/components/UploadPage.jsx:123 | the chat message always starts with "Analyze this soil image", and is exactly that text iff `lat` is empty |
| RequestBuilder.ChatMessageDeterminesLocation | frontend/src/components/UploadPage.jsx:123 | for non-empty, comma-free latitudes, two equal messages come from equal coordinates |
| RequestBuilder.ChatMessageExample | frontend/src/components/UploadPage.jsx:123 | the coordinates 17.409258, 81.691905 appear verbatim after the instruction; an empty `lat` drops the clause even when `long` is set |
| RequestBuilder.RequestData | frontend/src/components/UploadPage.jsx:116-127 | the analysis body has exactly `soil_image`, `lat` and `long`, and the chat body also `user_message`; the image is sent as is, the coordinates read back as typed, and the message is the chat message |
| RequestBuilder.ChatBodyExtendsAnalysisBody | frontend/src/components/UploadPage.jsx:116-127 | the chat body is the analysis body plus exactly one field, `user_message` |
| RequestBuilder.BuildRequest | frontend/src/components/UploadPage.jsx:111-138 | the endpoint follows the mode; gives the body's exact key set per mode, the image, null-coerced coordinates, credentials and chat message; the header is "Bearer " followed by the token or "" |
| UploadWizard.SubmitDisabled | frontend/src/components/UploadPage.jsx:513 | the button is disabled whenever `handleSubmit`'s image guard would refuse |
| UploadWizard.StoredResults | frontend/src/components/UploadPage.jsx:142-146 | results are the response body plus `mode` and `timestamp`, which override any body fields of the same name; every other body field is kept |
| UploadWizard.UploadPage.constructor | frontend/src/components/UploadPage.jsx:23-34 | mounts on step 1, with an empty form, no image, result or error, and the analysis mode |
| UploadWizard.UploadPage.SelectMode | frontend/src/components/UploadPage.jsx:171-174 | records the mode, moves to step 2, and changes nothing else |
| UploadWizard.UploadPage.ContinueToUpload | frontend/src/components/UploadPage.jsx:318 | moves to step 2 and changes nothing else |
| UploadWizard.UploadPage.Back | frontend/src/components/UploadPage.jsx:506 | returns to step 1, keeping the form, the preview and the mode |
| UploadWizard.UploadPage.ChooseFile | frontend/src/components/UploadPage.jsx:43-45 | with no file chosen, nothing changes; otherwise only the file is recorded |
| UploadWizard.UploadPage.ImageLoaded | frontend/src/components/UploadPage.jsx:47-54 | `soil_image` becomes the segment after the first comma and the preview the whole data URL; the coordinates and everything else stay |
| UploadWizard.UploadPage.RemoveImage | frontend/src/components/UploadPage.jsx:397-401 | clears the payload, the preview and the file, and leaves `lat`/`long` and everything else unchanged |
| UploadWizard.UploadPage.LocationChanged | frontend/src/components/UploadPage.jsx:59-65 | only the named coordinate takes the typed text |
| UploadWizard.UploadPage.RequestCurrentLocation | frontend/src/components/UploadPage.jsx:67-87 | with geolocation, only `loading` is set; without it, only the "not supported" error is set and `loading` is untouched |
| UploadWizard.UploadPage.LocationFound | frontend/src/components/UploadPage.jsx:71-78 | both coordinates take the position and `loading` ends |
| UploadWizard.UploadPage.LocationFailed | frontend/src/components/UploadPage.jsx:79-83 | sets the "Failed to get current location" error and ends `loading`; the coordinates already entered stay |
| UploadWizard.UploadPage.BeginSubmit | frontend/src/components/UploadPage.jsx:90-138 | a request goes out iff there is an image and both stored credentials are truthy; when `handleSubmit` runs with the button enabled, only missing credentials stop it; no image gives "Please upload a soil image" with `loading` untouched; missing credentials give "Please login first" with `loading` false; the step never changes; the submission carries the built request and the mode read at this moment |
| UploadWizard.UploadPage.SubmitSucceeded | frontend/src/components/UploadPage.jsx:140-155 | for a 2xx reply: status 200 stores the results, tagged with the submission's mode, and shows step 3; a 2xx status other than 200 changes only `loading`, which is false afterwards |
| UploadWizard.UploadPage.SubmitFailed | frontend/src/components/UploadPage.jsx:150-155 | shows the server `detail`, or "An error occurred during analysis" when there is none; the step stays and `loading` is false |
| UploadWizard.UploadPage.Reset | frontend/src/components/UploadPage.jsx:158-169 | back to the mount state (step 1, empty form, no preview, file, result or error), except that the mode is kept |
| UploadWizard.ServerErrorScenario | frontend/src/components/UploadPage.jsx:90-155 | a chat submission answered by an error with detail "model unavailable" was sent to `/chat`, shows that detail and stays on step 2 |
| UploadWizard.ResetAfterResultScenario | frontend/src/components/UploadPage.jsx:140-169 | after a successful chat analysis on step 3, reset gives the mount state with the chat mode still selected |
| UploadWizard.ModeSwitchedInFlightScenario | frontend/src/components/UploadPage.jsx:142-146 | a chat submission whose user goes back and picks the analysis mode before the reply stores its results as "chat", while the page's mode is now the analysis mode |
| Text.TrimEmptyIffBlank | frontend/src/components/ContactUs.jsx:44 | `s.trim()` is empty iff every character of `s` is ECMAScript white space |
| Text.SplitJoin | frontend/src/components/UploadPage.jsx:51 | `split` undoes joining separator-free parts |
| Text.Contains | agrolens-backend/app/main.py:527 | Python `word in text` holds iff the word occurs at some position |
| ContactForm.ContactData.With | frontend/src/components/ContactUs.jsx:28-31 | `{...formData, [name]: value}` sets the named field and no other |
| ContactForm.IsEmailShaped | frontend/src/components/ContactUs.jsx:47 | the test holds iff `/\S+@\S+\.\S+/` matches somewhere, unanchored |
| ContactForm.EmailMatchShrinks | frontend/src/components/ContactUs.jsx:47 | the pattern matches somewhere iff some '@' and '.' have a shortest match around them |
| ContactForm.RequiredError | frontend/src/components/ContactUs.jsx:44-51 | a required field gets its message exactly when its trimmed value is empty |
| ContactForm.EmailError | frontend/src/components/ContactUs.jsx:45-49 | gives "Email is required" iff the address is blank, and "Email is invalid" iff it is non-blank and the pattern fails; the two exclude each other |
| ContactForm.FieldError | frontend/src/components/ContactUs.jsx:41-54 | every message the validator writes is one of that field's own messages |
| ContactForm.Validate | frontend/src/components/ContactUs.jsx:41-54 | every entry of the returned map is a non-empty message its field can carry, and `inquiryType` is never reported |
| ContactForm.ValidateReportsFailingFields | frontend/src/components/ContactUs.jsx:41-54 | the fresh error map has a key exactly for each blank required field and for a blank or badly shaped e-mail, each with its message, and never `inquiryType` |
| ContactForm.ValidateAcceptsExactlyComplete | frontend/src/components/ContactUs.jsx:58-63 | validation gives no error iff name, subject and message are non-blank and the e-mail is non-blank and well shaped |
| ContactForm.ContactPage.constructor | frontend/src/components/ContactUs.jsx:15-24 | starts with an empty form, `inquiryType` 'general', no errors, not submitting and not submitted |
| ContactForm.ContactPage.Change | frontend/src/components/ContactUs.jsx:26-39 | updates only the named field and blanks that field's error if one is showing; other fields and errors stay |
| ContactForm.ContactPage.Submit | frontend/src/components/ContactUs.jsx:56-66 | with any validation error, the errors are stored and `isSubmitting` is not set; otherwise sending starts and the stored errors stay |
| ContactForm.ContactPage.SubmissionCompleted | frontend/src/components/ContactUs.jsx:68-78 | empties every field, sets `inquiryType` to 'general', sets `isSubmitted` and clears `isSubmitting` |
| ContactForm.ContactPage.SuccessMessageExpired | frontend/src/components/ContactUs.jsx:80-83 | the 5-second timer, and likewise the "Send Another Message" button (line 203), hides the success message and changes nothing else |
| QueryClassifier.AnyOccurs | agrolens-backend/app/main.py:527 | `any(word in text ...)` holds iff some keyword of the group occurs in the text |
| QueryClassifier.ClassifyQueryType | agrolens-backend/app/main.py:523-540 | the answer is always one of the seven labels |
| QueryClassifier.FirstMatchIsFirstFiring | agrolens-backend/app/main.py:527-540 | the chain answers the label of the first group that fires, and the fallback when none fires |
| QueryClassifier.RuleLabelsDistinct | agrolens-backend/app/main.py:527-540 | the six branches have six different labels, none of them "general_advice" |
| QueryClassifier.ClassifyPicksFirstMatchingGroup | agrolens-backend/app/main.py:523-538 | the answer is group i's label iff group i is the first, in the fixed order, with a keyword in the lower-cased query |
| QueryClassifier.FirstFiringOrNone | agrolens-backend/app/main.py:527-540 | either no group fires or exactly one group fires first |
| QueryClassifier.ClassifyFallsBackToGeneralAdvice | agrolens-backend/app/main.py:539-540 | "general_advice" iff no keyword of any group occurs in the lower-cased query |
| QueryClassifier.ClassifyIgnoresCase | agrolens-backend/app/main.py:525 | classifying the lower-cased query gives the same answer |
| QueryClassifier.IrrigationIsWaterManagement | agrolens-backend/app/main.py:531 | the stem 'irrigat' matches "irrigation" as a substring, so any casing of that word is "water_management" |
| QueryClassifier.SoilTypeIsSoilAnalysis | agrolens-backend/app/main.py:535 | the two-word key 'soil type' matches, so any casing of "soil type" is "soil_analysis" |
| UserStore.FirstIndex | agrolens-backend/app/main.py:108 | `find_one` returns the first matching document, or none when no document matches |
| UserStore.CreateUser | agrolens-backend/app/main.py:106-126 | a registered e-mail gives 400 "Email already registered" and changes nothing; a taken `_id` fails the insert and changes nothing; otherwise the user is appended with empty history and the new id is answered |
| UserStore.Authenticate | agrolens-backend/app/main.py:129-133 | answers a user iff some user has both this e-mail and this password, and the user answered has both |
| UserStore.CurrentUser | agrolens-backend/app/main.py:136-149 | the token is answered with the user whose id it is, and with 401 "Invalid authentication credentials" iff there is no such user |
| UserStore.Login | agrolens-backend/app/main.py:304-319 | succeeds iff the credentials match a user; the token is that user's id with type "bearer"; otherwise 401 "Invalid email or password" |
| UserStore.LoginTokenIdentifiesUser | agrolens-backend/app/main.py:304-319 | with unique ids, the login token leads `get_current_user` back to the very user who logged in |
| UserStore.RegisteredUserCanLogIn | agrolens-backend/app/main.py:106-133 | right after a successful registration, logging in answers the new id and that id leads back to the new user |
| UserStore.CreateUserKeepsKeysUnique | agrolens-backend/app/main.py:106-126 | registration keeps e-mails and ids unique |
| UserStore.TruncateImage | agrolens-backend/app/main.py:252 | an image of at most 100 characters is stored unchanged; a longer one becomes its first 100 characters plus "..." |
| UserStore.TruncateImageIdempotent | agrolens-backend/app/main.py:252 | a stored image is at most 103 characters, and truncating it again changes nothing |
| UserStore.StoredResponse | agrolens-backend/app/main.py:256 | the stored answer is the first min(n, 500) characters followed by "...", always |
| UserStore.StoredCoordinate | agrolens-backend/app/main.py:253-254 | a coordinate is stored only when truthy: missing or 0.0 becomes None, anything else is kept |
| UserStore.HistoryEntryFor | agrolens-backend/app/main.py:250-257 | the entry holds the truncated image, the truthy coordinates, the time and the truncated answer, with "" for a missing answer |
| UserStore.PushHistory | agrolens-backend/app/main.py:259-262 | the first user with the id gains the entry at the end of its history; every other document, including any later one with the same id, is unchanged; an unknown id changes nothing |
| UserStore.GetUserHistory | agrolens-backend/app/main.py:583-599 | the token's user's username, e-mail and history, as stored in the first document with that id, with `total_searches` equal to the history's length; 401 iff no user has that id |
| UserStore.SaveUserHistoryAddsOneSearch | agrolens-backend/app/main.py:250-262 | saving adds exactly one search, as the last history entry, and leaves every other user's reply unchanged |
| UserStore.AppendChat | agrolens-backend/app/main.py:265-286 | the insert fails iff the user has no document and the new `_id` is taken |
| UserStore.ChatHistoryOf | agrolens-backend/app/main.py:607-620 | `total_chats` equals the list's length; no document gives an empty list; otherwise the list is the `chatHistory` of the user's first document |
| UserStore.GetChatHistory | agrolens-backend/app/main.py:601-620 | for a known token, exactly the chat-history reply of that user; 401 iff no user has that id |
| UserStore.SaveChatAddsOneChat | agrolens-backend/app/main.py:265-286 | whether the document is extended or created, the saved exchange becomes the user's last chat and `total_chats` grows by one; other users' chats are unchanged |
| UserStore.AppendChatKeepsOneDocPerUser | agrolens-backend/app/main.py:273-286 | saving keeps at most one chat document per user and unique document ids |
| UserStore.Database.CreateUserDoc | agrolens-backend/app/main.py:106-126 | updates `users` and answers as `create_user` does, keeping e-mails and ids unique |
| UserStore.Database.SaveUserHistory | agrolens-backend/app/main.py:250-262 | `users` becomes the collection with the entry pushed; `ai_responses` is unchanged |
| UserStore.Database.SaveAiChatHistory | agrolens-backend/app/main.py:265-286 | `ai_responses` is extended or gains a document as the pure function says; a failed insert changes nothing; `users` is unchanged |
| FieldConstraints.ParseTexture | agrolens-backend/models.py:6-12 | `SoilTexture(v)` gives the member whose value is v, and fails iff no member has it |
| FieldConstraints.SixTexturesRoundTrip | agrolens-backend/models.py:6-12 | exactly six members with six distinct values; parsing a member's value gives the member back |
| FieldConstraints.ValidateLocation | agrolens-backend/models.py:27-29 | accepted iff latitude is in [-90, 90] and longitude in [-180, 180]; each failing field is reported, and no other |
| FieldConstraints.LocationBoundsInclusive | agrolens-backend/models.py:28-29 | the bounds themselves pass; values beyond them fail, naming only the failing field |
| FieldConstraints.ValidateUserCreate | agrolens-backend/models.py:38-41 | accepted iff the username has 3 to 50 characters and the password at least 8; each failing field is reported, and no other |
| FieldConstraints.MakeUserInDB | agrolens-backend/models.py:47-52 | an omitted `search_history` is empty and an omitted `created_at` is the current time |
| FieldConstraints.ValidateSoilImageRequest | agrolens-backend/models.py:61-62 | the location may be omitted; one that is given is accepted iff it is a valid `Location`, and its errors appear under `location.` |

## Left out

- Browser services are represented only by the values they deliver, as event parameters: `FileReader`, `navigator.geolocation`, `localStorage`, axios and `Date`. A read that fails, and the reader's `null` result, are not modelled.
- The interleaving of callbacks is a sequence of events chosen by the caller. An image read that finishes after a later removal is one such order. Each callback applies to the state current when it runs. The one exception is the value `handleSubmit` captured before its `await`, the mode: it travels in the `Submission` that `BeginSubmit` returns.
- The browser's own form validation is not modelled. `BeginSubmit` and `ContactPage.Submit` model `handleSubmit` once it runs, but the browser can refuse the submit before that:
  - the upload form's file input is `required` (UploadPage.jsx:369-376);
  - the contact form's checkbox is `required` (ContactUs.jsx:333-337), and its e-mail input is `type="email"` (ContactUs.jsx:239).
- One result of this: after Back and then Continue, the step-2 file input is mounted again and is empty, while the payload and the preview are kept. The enabled submit button then does nothing, no request and no error, until a file is chosen again.
- `toFixed(6)` formatting of the geolocation result is not modelled. Coordinates are the text the inputs hold.
- A non-string `detail` in an error response is not modelled. The model treats `detail` as a string or absent.
- The checkbox branch of `handleChange` (ContactUs.jsx:27) is not modelled. The form's one checkbox (ContactUs.jsx:333-337) has no `name` and no `onChange`, so `handleChange` never sees it, and every value it handles is text.
- The JSX markup and styling are not modelled. The exception is the submit button's `disabled` condition, which is `UploadWizard.SubmitDisabled`.
- `EmailStr` address validation is not modelled. The model accepts any string as an e-mail.
- Text.Lower: maps only ASCII letters. Python's `str.lower` also folds other scripts.
- `str(float)` rendering of stored coordinates is not modelled. A history entry holds the number itself.
- Floating point is modelled as `real`. NaN and infinities are not modelled.
- `uuid4()` and `utcnow()` are not called. Their results are parameters.
- The find-then-insert of `create_user` and `save_ai_chat_history` is not atomic in MongoDB. Concurrent requests could race; each call is treated as one step.
- The `ask_ai` and `/chat` handlers are not modelled: the Groq and OpenWeather calls, PIL image decoding and response assembly (main.py:156-243, 322-580). The syntax error in 361-580 stops the whole module from importing. Of that region, only `_classify_query_type` is modelled.
- `get_user_history` raising on a user deleted between the two lookups is not modelled. The model has no deletion.
- FastAPI, CORS and Mongo connection plumbing are not modelled: startup and shutdown, the health check, and `HTTPBearer` rejecting a missing header.
- Login.jsx, Register.jsx and the static pages hold no logic beyond what is modelled here.

Behaviour the code does not have is not modelled either: stale-response protection, file-size limits and submission timeouts.
