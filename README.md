# Session view and registration wizard, modelled in Dafny

This project models the two stateful controllers of an Angular telehealth front end:

- **Session view** (`SessionComponent`, module `SessionView`): one conversation's message
  thread (newest first), a per-session cache of thread state keyed by session id
  (find-then-replace-or-append), optimistic sending with replace-on-confirm and
  head-removal-on-failure, polling that prepends only the other party's messages,
  "load more" pagination that appends older pages and rolls the page counter back on
  failure, the attachment-upload status handler, and the two string helpers
  (recipient abbreviation, image-extension test).
- **Registration wizard** (`PsyregisterComponent`, module `PsyRegister`): a page counter
  moved by the step submits when the step's form is valid, the final submit that
  assembles the registration record (with its attachment list in the fixed order
  photo, CV, ID, certificate), the success and error callbacks with the
  duplicate-username and generic error flags, the password/confirmation cross-check,
  the 5 MiB file-size rule and the photo MIME-type rule, `goBack`, and the terms checkbox.

Both components are classes whose fields the methods update in place. Every network
call is split in two: the method that issues it returns the request as a value, and
each of its callbacks is its own method taking the response (or being the failure
branch). Form validity, file metadata, the clock (`Date.now`), the avatar style and
the server's duplicate-username marker are parameters. `JsBuiltins` models the
JavaScript built-ins the components call (`trim`, `toUpperCase`, `substring`,
`split(".").pop()`, `indexOf`, `splice`); `Wrappers` holds `Option`, standing for
`null`/`undefined`.

Points of the code the model keeps as they are:

- The banking submit is the last step: it starts the final submit and never moves the
  page (psyregister.component.ts:97-106). The personal, professional and attachments
  submits each move to the next page (:87-95, :109-127), and a successful registration
  shows page 5 (:168). The component does not fix which page shows which form; the
  scenario `RegisterHappyPath` assumes personal, professional and attachments on pages 1
  to 3 and banking on page 4.
- An oversized photo of an accepted type is not rejected, because the MIME check overwrites
  the size error. This is also listed under Findings.
- After a duplicate-username error, a later error of another kind leaves both flags set.
  This is also listed under Findings.

## Model

| member | source | states |
|---|---|---|
| `SessionView.SessionComponent.constructor` | src/app/components/session/session.component.ts:58-60 | a new view has no session, an empty cache, no polling, and the reset defaults |
| `SessionView.SessionComponent.InitProperties` | src/app/components/session/session.component.ts:62-71 | resets to: empty thread, empty input, not loading, page 1, `noMoreToLoad` false, `initialGetMaxedOut` true, `sessionEmpty` false; touches no other field |
| `SessionView.SessionComponent.SetSession` | src/app/components/session/session.component.ts:40-53 | leaving a session upserts its snapshot. The new session is then either restored exactly from its cache entry (polling on, no request) or reset with a first-page request `(id, 50, 1)`. With no new session, only the cache and polling change. The tracked attachment message is never touched |
| `SessionView.SessionComponent.UnloadSession` | src/app/components/session/session.component.ts:73-78 | polling stops and the current snapshot is upserted into the cache; at most one entry per id is kept |
| `SessionView.SessionComponent.CacheSession` | src/app/components/session/session.component.ts:80-100 | the cache becomes the find-then-replace-or-append of the current snapshot; afterwards the lookup of the current id yields exactly that snapshot and ids stay unique |
| `SessionView.Upsert` | src/app/components/session/session.component.ts:93-99 | the cache keeps its length when the id is already cached and grows by one otherwise; the new entry is in it, and every other entry comes from the old cache |
| `SessionView.SessionComponent.Snapshot` | src/app/components/session/session.component.ts:81-91 | the entry is keyed by the shown session's id and records its thread, page, `noMoreToLoad` and draft text (with the other four fields, all restored by `LoadFromCache`) |
| `SessionView.UpsertThenLookup` | src/app/components/session/session.component.ts:80-100 | caching then looking up the same id returns the cached entry (the cache/load round trip) |
| `SessionView.UpsertKeepsOtherLookups` | src/app/components/session/session.component.ts:93-99 | caching one session leaves the lookup of every other session id unchanged |
| `SessionView.UpsertShape` | src/app/components/session/session.component.ts:93-99 | an existing id's entry is replaced at the index `findIndex` gives; a new id is appended at the end; entries of other ids keep their index and value |
| `SessionView.UpsertKeepsIdsUnique` | src/app/components/session/session.component.ts:93-99 | if ids were unique before, they are unique after, and every entry carrying the cached id is the new entry |
| `SessionView.FindEntry` | src/app/components/session/session.component.ts:93 | `findIndex`: -1 iff no entry has the id; otherwise the first index whose entry has the id |
| `SessionView.EntriesWithId` | src/app/components/session/session.component.ts:149 | `filter` by id: empty iff no entry has the id, and never longer than the cache |
| `SessionView.EntriesWithIdMembers` | src/app/components/session/session.component.ts:149 | an entry is in the filtered list iff it is in the cache and has the id |
| `SessionView.EntriesWithIdAppend` | src/app/components/session/session.component.ts:149 | filtering distributes over concatenation, so the kept entries stay in cache order |
| `SessionView.Lookup` | src/app/components/session/session.component.ts:149 | `filter(...)[0]`: absent iff no entry has the id, otherwise a cache entry with that id |
| `SessionView.LookupIsFirstMatch` | src/app/components/session/session.component.ts:149 | the filter-based lookup returns exactly the entry at the `findIndex` position |
| `SessionView.SessionComponent.LoadFromCache` | src/app/components/session/session.component.ts:148-164 | returns true iff an entry with the current id exists. If so, the thread, `sessionEmpty`, `initialGetMaxedOut`, page, `noMoreToLoad`, abbreviation, avatar style and input text equal that entry's; if not, nothing changes |
| `SessionView.SessionComponent.GetSessionMessageCache` | src/app/components/session/session.component.ts:166-172 | returns a message list iff the current id is cached, and then it is the list of a cache entry with that id |
| `SessionView.SessionComponent.InitiateSession` | src/app/components/session/session.component.ts:102-134 | a cached session is restored with polling on and no request. Otherwise: defaults, loading, abbreviation computed from the recipient name, avatar style taken from the parameter, and a request for page 1 of 50 |
| `SessionView.SessionComponent.OnInitialMessages` | src/app/components/session/session.component.ts:112-125 | the thread becomes the response and polling starts. `sessionEmpty` is set on 0 messages. `initialGetMaxedOut` survives only with a full page of 50 |
| `SessionView.SessionComponent.OnInitialMessagesFailed` | src/app/components/session/session.component.ts:126-129 | a failed first fetch only clears `loading` |
| `SessionView.FirstOpen` | src/app/components/session/session.component.ts:40-122 | on a first visit, with no session or another session shown: `sessionEmpty` iff 0 messages, `initialGetMaxedOut` iff at least 50 messages, page 1, `noMoreToLoad` false |
| `SessionView.SwitchAwayAndBack` | src/app/components/session/session.component.ts:40-53 | leaving session A for B and returning to A restores A's thread, flags, page, abbreviation, avatar style and draft text |
| `SessionView.SessionComponent.CreateMessage` | src/app/components/session/session.component.ts:174-181 | the input is trimmed. Empty trimmed text changes nothing else. Otherwise a `mine`, type-1 message with the trimmed text is put at index 0, returned, and the input becomes '' |
| `SessionView.SessionComponent.InsertMessage` | src/app/components/session/session.component.ts:194-207 | builds a `mine` message of the given type for the current session and puts it at the head of the thread |
| `SessionView.SessionComponent.OnMessageCreated` | src/app/components/session/session.component.ts:182-184 | the confirmed message replaces the optimistic one at that one's index; length and all other positions unchanged |
| `SessionView.SessionComponent.OnMessageCreateFailed` | src/app/components/session/session.component.ts:185-191 | whatever is at index 0 is removed (nothing when empty), and the input gets back the sent text |
| `SessionView.SessionComponent.OnNewMessages` | src/app/components/session/session.component.ts:209-223 | only the other party's messages of the response are prepended, in order, and their number is emitted; with none, nothing changes and nothing is emitted |
| `SessionView.FromRecipient` | src/app/components/session/session.component.ts:213 | the filtered response is no longer than the response and holds no message of mine |
| `SessionView.FromRecipientMembers` | src/app/components/session/session.component.ts:213 | the filter keeps exactly the non-`mine` messages of the response |
| `SessionView.FromRecipientAppend` | src/app/components/session/session.component.ts:213 | filtering distributes over concatenation, so the relative order of the messages is kept |
| `SessionView.FromRecipientKeepsTheirs` | src/app/components/session/session.component.ts:213 | a response made only of the other party's messages passes the filter unchanged |
| `SessionView.SessionComponent.OnDestroy` | src/app/components/session/session.component.ts:225-228 | polling stops |
| `SessionView.SessionComponent.LoadPreviousMessages` | src/app/components/session/session.component.ts:230-233 | `loading` is set, the page is incremented before the request, and the request is for that page of 50 |
| `SessionView.SessionComponent.OnPreviousMessages` | src/app/components/session/session.component.ts:233-238 | the response is appended to the tail in order; `noMoreToLoad` becomes set iff it was set or the page is shorter than 50 |
| `SessionView.SessionComponent.OnPreviousMessagesFailed` | src/app/components/session/session.component.ts:239-243 | `loading` is cleared and the page counter goes back by one |
| `SessionView.LoadMoreFails` | src/app/components/session/session.component.ts:230-244 | a load-more whose request fails clears the spinner and leaves the page as it was; the frame holds every other field (the session, the thread, the draft, the flags, the cache, the tracked attachment) unchanged |
| `SessionView.SessionComponent.HandleFileUpload` | src/app/components/session/session.component.ts:282-298 | pending: a `mine`, type-2 message with the file name is put at the head and tracked. Success: the tracked message is replaced in place. Failure: the tracked message is removed and the error is toasted. Any other status: nothing changes |
| `SessionView.GetRecipientAbbrev` | src/app/components/session/session.component.ts:270-274 | the first 2 characters upper-cased, or the whole name when it is shorter than 2 |
| `SessionView.AttachmentIsImage` | src/app/components/session/session.component.ts:276-280 | true iff the file name is, or ends in '.' followed by, exactly jpeg, jpg or png (case-sensitive) |
| `SessionView.DropHead` | src/app/components/session/session.component.ts:187 | `splice(0, 1)`: one element shorter (nothing to drop in an empty list), and each kept element moves one place up; `HeadRollbackDropsIncoming` shows what this loses |
| `SessionView.HeadRollbackDropsIncoming` | src/app/components/session/session.component.ts:185-188 | if the other party's messages were prepended before the send failed, the rollback keeps the failed message and does not restore the prior thread |
| `SessionView.RemoveSent` | src/app/components/session/session.component.ts:187 | removing by identity takes out exactly one copy of the message: the first one, with everything before it and after it kept in order; an absent message changes nothing |
| `SessionView.RemoveSentUndoesInsert` | src/app/components/session/session.component.ts:185-188 | removing the failed message by identity restores the prior thread, whatever was prepended since (the other party's messages or a later send of mine), provided that is not the failed message itself |
| `SessionView.HeadRollbackDropsPendingSend` | src/app/components/session/session.component.ts:184-188 | with a second send of mine pending at the head, the positional rollback drops that message and keeps the failed one, while removal by identity drops the failed one |
| `JsBuiltins.TrimStart` | src/app/components/session/session.component.ts:175 | the result is a suffix of the input; every dropped character is whitespace and the result does not start with one |
| `JsBuiltins.TrimEnd` | src/app/components/session/session.component.ts:175 | the result is a prefix of the input; every dropped character is whitespace and the result does not end with one |
| `JsBuiltins.Trim` | src/app/components/session/session.component.ts:175 | `trim()`: the input with a whitespace-only prefix and a whitespace-only suffix cut off, neither starting nor ending with whitespace |
| `JsBuiltins.TrimEmptyIff` | src/app/components/session/session.component.ts:175-177 | the trimmed text is empty iff every character is whitespace |
| `JsBuiltins.TrimIdempotent` | src/app/components/session/session.component.ts:175 | trimming twice is trimming once |
| `JsBuiltins.ToUpperCase` | src/app/components/session/session.component.ts:273 | same length; no lower-case letter remains, each lower-case letter becomes the upper-case letter at the same place in the alphabet, and every other character is kept |
| `JsBuiltins.ToUpperCaseIdempotent` | src/app/components/session/session.component.ts:273 | upper-casing twice is upper-casing once |
| `JsBuiltins.Substring` | src/app/components/session/session.component.ts:273 | `substring(start, end)` with `start <= end`: the slice between the two indices, each clamped into the string |
| `JsBuiltins.AfterLastDot` | src/app/components/session/session.component.ts:278 | the result is a dot-free suffix of the name, and it is preceded by '.' whenever it is not the whole name |
| `JsBuiltins.AfterLastDotIsExtension` | src/app/components/session/session.component.ts:277-279 | for a dot-free extension, the last segment equals it iff the name is it or ends in '.' plus it |
| `JsBuiltins.IndexOf` | src/app/components/session/session.component.ts:184 | -1 iff the element is absent; otherwise its first position |
| `JsBuiltins.RemoveAt` | src/app/components/session/session.component.ts:292 | `splice(i, 1)`: one element shorter, elements before `i` kept, elements after it shifted down |
| `PsyRegister.PsyregisterComponent.constructor` | src/app/components/psyregister/psyregister.component.ts:38-74 | page 1, not loading, not submitted, both error flags clear, and the four forms built with empty controls |
| `PsyRegister.PsyregisterComponent.OnPersonalSubmit` | src/app/components/psyregister/psyregister.component.ts:87-95 | `submitted` ends true iff the form is invalid; the page goes up by exactly 1 iff the form is valid |
| `PsyRegister.PsyregisterComponent.OnBankingSubmit` | src/app/components/psyregister/psyregister.component.ts:97-106 | never moves the page. A valid form clears `submitted`, sets `loading` and returns `RegistrationRecord` of the three forms and the files; an invalid one only sets `submitted` |
| `PsyRegister.PsyregisterComponent.OnProfessionalSubmit` | src/app/components/psyregister/psyregister.component.ts:109-117 | `submitted` ends true iff the form is invalid; the page goes up by exactly 1 iff the form is valid |
| `PsyRegister.PsyregisterComponent.OnAttachmentsSubmit` | src/app/components/psyregister/psyregister.component.ts:119-127 | `submitted` ends true iff the form is invalid; the page goes up by exactly 1 iff the form is valid |
| `PsyRegister.PsyregisterComponent.FinalSubmit` | src/app/components/psyregister/psyregister.component.ts:129-151 | the record sent is `RegistrationRecord` of the three forms and `Attachments` of the files (the list `GenerateAttachments` builds); `loading` is set |
| `PsyRegister.RegistrationRecord` | src/app/components/psyregister/psyregister.component.ts:130-149 | each field of the record is the value of its control (email, password, names, phone, ID, age from the personal form; experience, licence, the one qualification, full-time from the professional form; the four banking fields), and the attachment list is the one passed in |
| `PsyRegister.PsyregisterComponent.OnRegisterSuccess` | src/app/components/psyregister/psyregister.component.ts:152-169 | page 5, the personal email kept for display, all four forms reset, `loading` cleared |
| `PsyRegister.PsyregisterComponent.OnRegisterError` | src/app/components/psyregister/psyregister.component.ts:170-182 | `loading` cleared. The flags become what `ErrorFlagsAfter` gives for the duplicate marker |
| `PsyRegister.ErrorFlagsAfter` | src/app/components/psyregister/psyregister.component.ts:171-180 | with the duplicate marker: duplicate flag set and generic flag clear; otherwise the generic flag is set and the duplicate flag is kept |
| `PsyRegister.ErrorFlagsExclusiveAfterClear` | src/app/components/psyregister/psyregister.component.ts:171-180 | from a state with the duplicate flag clear, one error sets exactly one of the two flags |
| `PsyRegister.StaleDuplicateFlag` | src/app/components/psyregister/psyregister.component.ts:171-180 | a duplicate error followed by a generic one leaves both flags set |
| `PsyRegister.DuplicateThenGenericError` | src/app/components/psyregister/psyregister.component.ts:171-180 | the same two errors in a row on the component leave both messages on |
| `PsyRegister.IntendedErrorFlags` | src/app/components/psyregister/psyregister.component.ts:171-180 | exactly one flag set, the duplicate flag iff the marker is present |
| `PsyRegister.IntendedErrorFlagsAgreeAfterClear` | src/app/components/psyregister/psyregister.component.ts:171-180 | the intended flags equal the as-written ones whenever the duplicate flag starts clear |
| `PsyRegister.PsyregisterComponent.ValidatePassword` | src/app/components/psyregister/psyregister.component.ts:189-197 | returns the null result iff password equals confirmation. Otherwise only the confirmation control's error changes, to `dontMatch` |
| `PsyRegister.SizeError` | src/app/components/psyregister/psyregister.component.ts:206-209 | the error is `tooLarge` iff the size exceeds 5242880 bytes (exactly 5242880 passes), otherwise none |
| `PsyRegister.PsyregisterComponent.OnCVFileChange` | src/app/components/psyregister/psyregister.component.ts:203-211 | with a file, the CV control's error becomes the size rule's verdict; without one, the form is unchanged |
| `PsyRegister.PsyregisterComponent.OnIdDocFileChange` | src/app/components/psyregister/psyregister.component.ts:213-221 | with a file, the ID control's error becomes the size rule's verdict; without one, the form is unchanged |
| `PsyRegister.PsyregisterComponent.OnLicenseFileChange` | src/app/components/psyregister/psyregister.component.ts:238-245 | with a file, the licence control's error becomes the size rule's verdict; without one, the form is unchanged |
| `PsyRegister.PsyregisterComponent.OnPhotoFileChange` | src/app/components/psyregister/psyregister.component.ts:223-236 | the photo control's error ends as `PhotoError` of the file; nothing else in the form changes |
| `PsyRegister.PhotoError` | src/app/components/psyregister/psyregister.component.ts:223-235 | none iff there is no file or its type is image/jpeg, image/jpg or image/png, whatever its size; otherwise `isPDF` |
| `PsyRegister.OversizedPhotoAccepted` | src/app/components/psyregister/psyregister.component.ts:226-234 | a 6291456-byte image/jpeg photo gets no error |
| `PsyRegister.IntendedPhotoError` | src/app/components/psyregister/psyregister.component.ts:223-235 | none iff there is no file, or it is within 5 MiB and of an accepted type; oversized is always `tooLarge` |
| `PsyRegister.IntendedPhotoErrorAgreesWithinLimit` | src/app/components/psyregister/psyregister.component.ts:223-235 | within 5 MiB the intended and the as-written photo checks agree |
| `PsyRegister.PsyregisterComponent.GoBack` | src/app/components/psyregister/psyregister.component.ts:248-253 | the page goes down by exactly 1 and both error flags are false |
| `PsyRegister.PsyregisterComponent.NextPage` | src/app/components/psyregister/psyregister.component.ts:255-258 | the page goes up by exactly 1 |
| `PsyRegister.PsyregisterComponent.CheckValue` | src/app/components/psyregister/psyregister.component.ts:313-322 | terms accepted iff the reported value is false |
| `PsyRegister.GenerateAttachments` | src/app/components/psyregister/psyregister.component.ts:262-297 | the pushed list equals `Attachments` of the chosen files |
| `PsyRegister.AttachmentsInUploadOrder` | src/app/components/psyregister/psyregister.component.ts:270-296 | the attachment list is strictly ordered photo, CV, ID, certificate, so no type appears twice |
| `PsyRegister.AttachmentsMatchInputs` | src/app/components/psyregister/psyregister.component.ts:270-296 | a type is in the list iff its input holds a file, and each entry carries that file's name and payload |
| `PsyRegister.TypeId` | src/app/components/psyregister/psyregister.component.ts:263-268 | every attachment type is sent under a code between 1 and 4 |
| `PsyRegister.Attachments` | src/app/components/psyregister/psyregister.component.ts:270-296 | at most four entries, each of a type whose file input holds a file |
| `PsyRegister.TypeIdsDistinct` | src/app/components/psyregister/psyregister.component.ts:263-268 | the four attachment types are sent under four distinct codes 1..4 |
| `PsyRegister.FormGroup.SetErrors` | src/app/components/psyregister/psyregister.component.ts:196-243 | `setErrors`: the named control's error becomes the given one (none for null); the values and every other control's error are unchanged |
| `PsyRegister.EmptyForm` | src/app/components/psyregister/psyregister.component.ts:42-73 | the listed controls start as '', no other control has a value, and no control has an error |
| `PsyRegister.ResetForm` | src/app/components/psyregister/psyregister.component.ts:162-165 | after `reset()` every control value is null and no hand-set error remains |
| `PsyRegister.RegisterHappyPath` | src/app/components/psyregister/psyregister.component.ts:87-168 | four valid steps from page 1 and an accepted registration end on page 5, with the personal email kept and sent |

## Findings

| source | as written | input that shows it | evidently intended | confidence | as-written member | corrected member |
|---|---|---|---|---|---|---|
| src/app/components/psyregister/psyregister.component.ts:226-234 | the MIME check runs after the size check and overwrites its `tooLarge` with null | a 6291456-byte photo of type image/jpeg | an oversized photo is rejected like the other attachments | high, not executed | `PsyRegister.OversizedPhotoAccepted` | `PsyRegister.IntendedPhotoError` |
| src/app/components/psyregister/psyregister.component.ts:171-180 | the generic-error branch sets `finalSumbitError` but never clears `duplicateUsername` | a duplicate-username error, then a retried submit from the banking page that fails otherwise | the two messages are mutually exclusive after every error | medium, not executed | `PsyRegister.StaleDuplicateFlag` | `PsyRegister.IntendedErrorFlags` |
| src/app/components/session/session.component.ts:185-188 | a failed send removes index 0, not the optimistic message | a poll prepends a message of the other party, or a second message of mine is sent, before the send fails | the failed optimistic message is removed | medium, not executed | `SessionView.HeadRollbackDropsIncoming` | `SessionView.RemoveSentUndoesInsert` |

The component classes keep the behaviour as written. This matches the source. The
corrected definitions stand beside the classes, each with its intended property proved.

## Left out

- Timer plumbing (the RxJS subscriptions, the 30-second period and the immediate first tick after a cache restore) is reduced to a `polling` flag. The request a poll tick issues is not modelled; its success callback is `OnNewMessages`, and its error callback only logs.
- HTTP services are not modelled. Each request is returned as a value, and each success or error callback is a separate method. Nothing enforces the order in which late responses arrive.
- Aliasing: the source caches the live message array by reference, so later in-place changes to a restored thread also show in its cache entry until the next upsert. The model caches value snapshots.
- `indexOf` and object identity: `indexOf` is modelled by value equality (first equal message). The tracked message must be present; the source's behaviour when `indexOf` returns -1 is not modelled.
- Browser and DOM work is out of scope: `autoGrowMessageInput`, the `setAttribute` calls in `resetMessageInput`, `window.scroll`, `@ViewChild` elements, `DomSanitizer`, toasts and console logging. The avatar style comes from a helper service and is an opaque string parameter.
- `FileReader` and base64 encoding are out of scope: each chosen file carries its base64 payload as an input, and the `await` between reads is not modelled.
- Angular validators (required, pattern, email) are out of scope: each form's validity is a boolean input. After `reset()` the validators would recompute errors such as `required`; the model only clears hand-set errors.
- `JsBuiltins.ToUpperCase`: upper-cases ASCII letters only. JavaScript's full Unicode case mapping, including mappings that change the length, is not modelled.
- A `char` is a Unicode scalar value, while JavaScript strings count UTF-16 code units. The two agree only for text inside the Basic Multilingual Plane, which is all the model covers: for a name starting with a character outside it (an emoji, say), JavaScript's `length`, `substring(0, 2)` and `toUpperCase` in `getRecipientAbbrev` see two code units where the model sees one character. No Unicode normalisation is done.
- `CheckValue`: the event is a boolean, so JavaScript's loose `== false` on non-boolean values is not modelled.
- Form values are strings or null. Values of other JavaScript types (such as a checkbox's boolean for `isFullTime`) are treated as strings.
- Calls with no session shown: `SessionView.SessionComponent.CreateMessage` (for non-empty text), `InsertMessage`, `LoadPreviousMessages`, `HandleFileUpload` (for a pending upload) and `GetSessionMessageCache` require a session. In the source these paths read `this.session.id`, which throws a TypeError when there is none; in `loadPreviousMessages` the throw comes after `loading` is set and `messagesPage` is incremented (session.component.ts:231-233). The exception path is not modelled.
- `SessionView.SessionComponent.OnMessageCreateFailed`: requires the sent message to carry text, which every message returned by `CreateMessage` does. A null text restored into the input is not modelled.
