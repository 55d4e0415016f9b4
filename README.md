# Tenant onboarding form, file uploader and tenant list — a Dafny model

This project models the client-side core of a WhatsApp-bot admin dashboard,
written in TypeScript and React. It covers three components.

- **The "add tenant" form** (`AddUser.tsx`, module `AddUser`). It holds:
  - a record of thirteen string fields;
  - an error map that `validateForm` rebuilds on every submit;
  - the edit, reset and submit handlers;
  - the success notice with its three-second dismiss timer;
  - the choice of whether the prompt block sits above or below the grid of inputs.

  `TenantForm` is a class whose methods update its fields as the handlers update React state. `ComputeErrors` is the validation loop, proved equal to `Validation`, a key-by-key statement of the rules.
- **The file uploader** (`FileUploader.tsx`, module `FileUploader`). It holds:
  - the list of accepted files;
  - the drag-highlight flag;
  - a single error slot;
  - the effect that tells the owning form whether the list is non-empty.

  `Uploader` is a class. Batches are validated one file at a time by a loop, and each check overwrites the error slot.
- **The tenant list filter and sort** (`Users.tsx`, module `UserList`). This is pure. A search predicate filters the tenants, then a stable sort orders them with the comparator chosen in the drop-down.

There are two shared modules.
- Text holds the JavaScript string operations the components use:
  - `trim`;
  - ASCII lower-casing;
  - `includes`;
  - `split('.').pop()`;
  - the camel-case `replace(/([A-Z])/g, ' $1')`;
  - the decimal rendering of a whole number.
- Options holds the optional value that stands for `undefined`.

The model proves several consequences of the code as written.
- A blank `whatsappBusinessId` never shows its own message "Business ID is required". The pass over `fields` overwrites it with the generic "whatsapp Business Id is required" (`BusinessIdGetsGenericMessage`).
- The page renders no input for `name` or `whatsappNumber`, and reset drops both keys from the record. So a freshly mounted form can never pass validation, whatever the user does (`SubmitNeverSucceeds`). A session of user events never shows the success notice (`UserSession`).
- An all-blank record gets an error on each of its thirteen keys, `whatsappNumber` included (`BlankFormFailsEverywhere`).
- The WhatsApp number is matched untrimmed. A well-formed number with any white space before or after it (at least one character) is reported "Invalid", not "required" (`PaddedNumberIsInvalid`).
- Each generic message name is the key with a space put before every capital. So the `openaiAPI` message reads "openai A P I is required" (`MessageNameIsRewrite`).
- Only a passing submit starts a dismiss timer, and nothing ever cancels one (`TenantForm.HandleAddUser`, `TenantForm.SuccessTimerFires`). If two submits could pass within three seconds, the first timer would hide the second notice early. On this page no submit passes (`UserSession`), so the notice never shows.
- `removeFile` drops every entry that is the same file object, not only the first, and keeps the other entries in their order (`WithoutCounts`, `WithoutAppend`).
- Every check in a batch overwrites the error slot, and an accepted file clears it. So after a batch the slot holds the verdict on the last file (`SlotAfter`).

## Model

| member | source | states |
|---|---|---|
| `AddUser.InitialFormData` | src/components/main/AddUser.tsx:45-59 | The form starts with all thirteen keys present, each holding the empty string. |
| `AddUser.FieldKeysAreTheFields` | src/components/main/AddUser.tsx:64-121 | The `fields` list holds exactly the keys other than `name` and `whatsappNumber`. |
| `AddUser.FieldIndex` | src/components/main/AddUser.tsx:64-121 | Each declared field has a position in `fields`, and that position holds it. |
| `AddUser.PropertyName` | src/components/main/AddUser.tsx:64-121 | The property name of each key, as `FormData` and the `fields` list spell it. |
| `AddUser.Missing` | src/components/main/AddUser.tsx:142 | `!formData[k]?.trim()`: the key is absent or holds only white space (also lines 126, 130 and 136). |
| `AddUser.MissingMeansTrimsToNothing` | src/components/main/AddUser.tsx:142 | A value counts as missing exactly when it is absent or `trim()` leaves the empty string. |
| `AddUser.Validation` | src/components/main/AddUser.tsx:123-146 | The error map holds a key exactly when the rule for that key fires, with that rule's message. |
| `AddUser.NamedRules` | src/components/main/AddUser.tsx:124-138 | After the three named rules, `name` and `whatsappNumber` hold their final verdicts. `whatsappBusinessId` holds "Business ID is required" exactly when it is missing, and no other declared field has an entry. |
| `AddUser.ComputeErrors` | src/components/main/AddUser.tsx:123-146 | The named rules followed by the loop over `fields` build exactly `Validation(data)`. |
| `AddUser.VisitedStep` | src/components/main/AddUser.tsx:140 | Each step of the `forEach` reaches exactly one new declared field. |
| `AddUser.FieldPassGivesValidation` | src/components/main/AddUser.tsx:140-145 | Once every field has been visited, the map built so far is `Validation(data)`. |
| `AddUser.ValidationPassesIff` | src/components/main/AddUser.tsx:148 | Validation passes if and only if the name is filled, the number is filled and well-formed, and every declared field is filled. |
| `AddUser.ValidationMessagesNonEmpty` | src/components/main/AddUser.tsx:127-143 | Every message written is non-empty, so every key in the map shows an error. |
| `AddUser.BlankFormFailsEverywhere` | src/components/main/AddUser.tsx:123-145 | An all-blank record gets an error on each of its thirteen keys and on no other. |
| `AddUser.MessageNameIsRewrite` | src/components/main/AddUser.tsx:143 | For every key, the name in its generic message is the key's property name with a space before each capital. |
| `AddUser.AcronymApi` | src/components/main/AddUser.tsx:143 | The rewrite spaces every letter of "API": " A P I". |
| `AddUser.TwoWords` | src/components/main/AddUser.tsx:143 | A lower-case word followed by one capitalised word is rewritten with one space between them. |
| `AddUser.ThreeWords` | src/components/main/AddUser.tsx:143 | A lower-case word followed by two capitalised words is rewritten with a space before each of the two. |
| `AddUser.JoinWithSpaces` | src/components/main/AddUser.tsx:143 | A regrouping step of the message-name proofs: joining the spaced pieces one way or another gives the same string. |
| `AddUser.WordsAroundAcronym` | src/components/main/AddUser.tsx:143 | A word, "API" and a capitalised word are rewritten to the word, " A P I", a space and the capitalised word. |
| `AddUser.RewriteThreePieces` | src/components/main/AddUser.tsx:143 | The rewrite of three pieces joined is the three rewrites joined. |
| `AddUser.WordBeforeAcronym` | src/components/main/AddUser.tsx:143 | A lower-case word followed by "API" is rewritten to the word and " A P I". |
| `AddUser.WhatsappNumberWords` | src/components/main/AddUser.tsx:143 | `whatsappNumber` is rewritten to "whatsapp Number". |
| `AddUser.WhatsappNumberName` | src/components/main/AddUser.tsx:143 | The message name of `whatsappNumber` is the rewrite of its property name. |
| `AddUser.WhatsappBusinessIdWords` | src/components/main/AddUser.tsx:143 | `whatsappBusinessId` is rewritten to "whatsapp Business Id". |
| `AddUser.WhatsappBusinessIdName` | src/components/main/AddUser.tsx:143 | The message name of `whatsappBusinessId` is the rewrite of its property name. |
| `AddUser.BusinessNameWords` | src/components/main/AddUser.tsx:143 | `businessName` is rewritten to "business Name". |
| `AddUser.BusinessNameName` | src/components/main/AddUser.tsx:143 | The message name of `businessName` is the rewrite of its property name. |
| `AddUser.WhatsappApiTokenWords` | src/components/main/AddUser.tsx:143 | `whatsappAPIToken` is rewritten to "whatsapp A P I Token". |
| `AddUser.WhatsappApiTokenName` | src/components/main/AddUser.tsx:143 | The message name of `whatsappAPIToken` is the rewrite of its property name. |
| `AddUser.WhatsappPhoneNumberWords` | src/components/main/AddUser.tsx:143 | `whatsappPhoneNumber` is rewritten to "whatsapp Phone Number". |
| `AddUser.WhatsappPhoneNumberName` | src/components/main/AddUser.tsx:143 | The message name of `whatsappPhoneNumber` is the rewrite of its property name. |
| `AddUser.WhatsappPhoneIdWords` | src/components/main/AddUser.tsx:143 | `whatsappPhoneId` is rewritten to "whatsapp Phone Id". |
| `AddUser.WhatsappPhoneIdName` | src/components/main/AddUser.tsx:143 | The message name of `whatsappPhoneId` is the rewrite of its property name. |
| `AddUser.OpenaiApiWords` | src/components/main/AddUser.tsx:143 | `openaiAPI` is rewritten to "openai A P I". |
| `AddUser.OpenaiApiName` | src/components/main/AddUser.tsx:143 | The message name of `openaiAPI` is the rewrite of its property name. |
| `AddUser.RetrievalToolNameWords` | src/components/main/AddUser.tsx:143 | `retrievalToolName` is rewritten to "retrieval Tool Name". |
| `AddUser.RetrievalToolNameName` | src/components/main/AddUser.tsx:143 | The message name of `retrievalToolName` is the rewrite of its property name. |
| `AddUser.RetrievalToolDescriptionWords` | src/components/main/AddUser.tsx:143 | `retrievalToolDescription` is rewritten to "retrieval Tool Description". |
| `AddUser.RetrievalToolDescriptionName` | src/components/main/AddUser.tsx:143 | The message name of `retrievalToolDescription` is the rewrite of its property name. |
| `AddUser.MessageName` | src/components/main/AddUser.tsx:143 | The key's name with a space before each capital, spelled out per key (proved equal to the rewrite by `MessageNameIsRewrite`). |
| `AddUser.RequiredMessage` | src/components/main/AddUser.tsx:143 | The generic message: the message name followed by " is required". |
| `AddUser.BusinessIdGetsGenericMessage` | src/components/main/AddUser.tsx:136-145 | A blank `whatsappBusinessId` ends with the generic message, never "Business ID is required". |
| `AddUser.PaddedNumberIsInvalid` | src/components/main/AddUser.tsx:130-134 | Any well-formed number with white space before it, after it or both (at least one character in all) is reported as invalid, because the regular expression sees the untrimmed value. |
| `AddUser.PhoneNumberExamples` | src/components/main/AddUser.tsx:132 | "12345" fails the phone pattern; "+14155551234" matches it. |
| `AddUser.IsPhoneNumber` | src/components/main/AddUser.tsx:132 | The pattern `^\+?\d{10,}$`: an optional '+' followed by at least ten decimal digits and nothing else. |
| `AddUser.ExpectedError` | src/components/main/AddUser.tsx:124-145 | The final verdict on one key: the name and number messages for those keys, the generic message for a missing declared field, none otherwise. |
| `AddUser.ClearedErrors` | src/components/main/AddUser.tsx:158-163 | An edit keeps the set of error keys. It blanks the edited key's message and leaves every other message as it was. |
| `AddUser.GridKeys` | src/components/main/AddUser.tsx:267-268 | The grid shows exactly the declared fields other than the prompt. |
| `AddUser.EditableKeys` | src/components/main/AddUser.tsx:219-310 | The keys with an input on the page are exactly the declared fields: the grid inputs (267-281) and the prompt textarea (219-222 above the grid, 307-310 below it). So `name` and `whatsappNumber` have none. |
| `AddUser.ResetFormData` | src/components/main/AddUser.tsx:167-170 | The reset record holds exactly the declared fields, each empty, with no `name` or `whatsappNumber`. |
| `AddUser.NameStaysMissing` | src/components/main/AddUser.tsx:151-184 | Once `name` is missing, no edit, cancel or submit a user can cause fills it. |
| `AddUser.SubmitNeverSucceeds` | src/components/main/AddUser.tsx:176-184 | From a freshly mounted form, after any user events, validation fails on `name`. |
| `AddUser.PromptAboveGrid` | src/components/main/AddUser.tsx:210 | The prompt sits above the grid when no file is uploaded and the screen is neither small nor mid-sized. |
| `AddUser.IsSmallScreen` | src/hooks/useScreen.tsx:8 | The `(max-width: 768px)` media query. |
| `AddUser.IsMidScreen` | src/hooks/useScreen.tsx:9 | The `(min-width: 769px) and (max-width: 1040px)` media query. |
| `AddUser.PromptBelowGrid` | src/components/main/AddUser.tsx:298 | The prompt block shows below the grid exactly when it does not show above it. |
| `AddUser.PromptAboveByWidth` | src/components/main/AddUser.tsx:210 | The prompt is above the grid exactly when no file is uploaded and the width is over 1040px, or strictly between 768px and 769px. |
| `AddUser.TenantForm.constructor` | src/components/main/AddUser.tsx:43-62 | Mounting gives the initial record, no errors, no notice, no timer and no upload. |
| `AddUser.TenantForm.ValidateForm` | src/components/main/AddUser.tsx:123-149 | The error map is replaced by `Validation(formData)`, and the result is true exactly when that map is empty. |
| `AddUser.TenantForm.HandleInputChange` | src/components/main/AddUser.tsx:151-164 | The edited key takes the new value, and the error map becomes `ClearedErrors` of the old one. |
| `AddUser.TenantForm.HandleReset` | src/components/main/AddUser.tsx:166-174 | The loop over `fields` leaves the record equal to `ResetFormData()` and the error map empty. |
| `AddUser.TenantForm.HandleAddUser` | src/components/main/AddUser.tsx:176-184 | On a pass: the notice shows, one more timer is pending, and the form is reset. On a failure: only the error map changes, to `Validation`. |
| `AddUser.TenantForm.SuccessTimerFires` | src/components/main/AddUser.tsx:181 | A firing timer hides the notice, whichever submit started it. |
| `AddUser.TenantForm.SetFileUploaded` | src/components/main/AddUser.tsx:206 | The upload widget's callback records the value it is given. |
| `AddUser.AfterSubmit` | src/components/main/AddUser.tsx:176-184 | A submit resets a passing record and leaves a failing one as it is. |
| `AddUser.Step` | src/components/main/AddUser.tsx:151-184 | The record after one event: an edit sets the key, a cancel resets, a submit acts as `AfterSubmit`. |
| `AddUser.Dispatch` | src/components/main/AddUser.tsx:151-184 | Handling one event changes the record as `Step` says. An edit clears that key's message, a cancel empties the error map, and a submit sets the map to `Validation` of the record. Only a passing submit shows the notice and starts one more timer; every other event leaves both untouched. |
| `AddUser.SessionStep` | src/components/main/AddUser.tsx:176-184 | Before each event of a user session, the record still fails validation. |
| `AddUser.UserSession` | src/components/main/AddUser.tsx:176-184 | A mounted form driven through any user events ends with the replayed record, no success notice and no pending timer. |
| `AddUser.DropIntoForm` | src/components/main/AddUser.tsx:206 | After a drop, the highlight is off, the accepted files are appended, the error slot holds the last dropped file's verdict (`SlotAfter`), and the owner is told whether the list is non-empty. The form records that, so the prompt is above the grid (on a large screen) exactly when the list is empty. |
| `FileUploader.SizeMessage` | src/components/ui/FileUploader.tsx:31 | The size message names the limit in MB, as a decimal whole number. |
| `FileUploader.Extension` | src/components/ui/FileUploader.tsx:22 | The lower-cased text after the last '.', or the whole name lower-cased when it has no '.'. |
| `FileUploader.HasAllowedType` | src/components/ui/FileUploader.tsx:22-25 | The extension is one of pdf, csv and txt. |
| `FileUploader.ExtensionOfDottedName` | src/components/ui/FileUploader.tsx:22 | The extension of `stem.ext` is the lower-cased `ext`, whatever dots the stem holds. |
| `FileUploader.DotlessNameIsItsOwnExtension` | src/components/ui/FileUploader.tsx:22-25 | A name with no dot is its own extension, so it passes the type check exactly when it lower-cases to pdf, csv or txt. |
| `FileUploader.Rejection.Message` | src/components/ui/FileUploader.tsx:26-31 | The slot shows the type message exactly for a type rejection, and a size rejection shows `SizeMessage` of the limit. |
| `FileUploader.FileCheck` | src/components/ui/FileUploader.tsx:21-37 | A file is accepted if and only if its type is allowed and its size is within the limit. A bad type is reported before size, and size is reported only for an allowed type. |
| `FileUploader.Accepts` | src/components/ui/FileUploader.tsx:51 | `validateFile`'s verdict as `filter` uses it: the file passes both the type and the size check. |
| `FileUploader.Filter` | src/components/ui/FileUploader.tsx:51 | Filtering never lengthens a batch. |
| `FileUploader.FilterSound` | src/components/ui/FileUploader.tsx:51 | Every file kept comes from the batch and passes the check. |
| `FileUploader.FilterComplete` | src/components/ui/FileUploader.tsx:51 | Every file of the batch that passes the check is kept. |
| `FileUploader.FilterAppend` | src/components/ui/FileUploader.tsx:51 | Filtering two batches one after the other is filtering their concatenation, so input order is kept. |
| `FileUploader.FilterAll` | src/components/ui/FileUploader.tsx:51 | A batch of acceptable files is kept whole and in order. |
| `FileUploader.Accepted` | src/components/ui/FileUploader.tsx:51 | The files of a batch that `validateFile` accepts, in batch order. |
| `FileUploader.SlotAfter` | src/components/ui/FileUploader.tsx:51 | After a non-empty batch, the error slot is clear exactly when the last file was accepted. |
| `FileUploader.AcceptedStep` | src/components/ui/FileUploader.tsx:51 | Validating one more file appends it when accepted, and its verdict fills the slot. |
| `FileUploader.Without` | src/components/ui/FileUploader.tsx:64 | The list with every entry that is the given file object left out. |
| `FileUploader.WithoutCounts` | src/components/ui/FileUploader.tsx:63-65 | Removal drops every copy of the file object and keeps every other entry's count. |
| `FileUploader.WithoutAbsent` | src/components/ui/FileUploader.tsx:63-65 | Removing a file that is not listed leaves the list unchanged. |
| `FileUploader.WithoutAppend` | src/components/ui/FileUploader.tsx:64 | Removing from two lists joined is removing from each and joining, so the kept entries stay in list order. |
| `FileUploader.WithoutLength` | src/components/ui/FileUploader.tsx:63-65 | The list shrinks by exactly the number of times the file occurred. |
| `FileUploader.Uploader.constructor` | src/components/ui/FileUploader.tsx:11-19 | Mounting gives an empty list, no highlight and no error. The mount-time effect reports `false` to a listening owner. |
| `FileUploader.Uploader.ReportUploadState` | src/components/ui/FileUploader.tsx:67-73 | The effect tells a listening owner whether the list is non-empty; without a listener nothing is reported. |
| `FileUploader.Uploader.ValidateFile` | src/components/ui/FileUploader.tsx:21-37 | The slot becomes the `FileCheck` verdict, and the result is true exactly when the slot is clear. |
| `FileUploader.Uploader.HandleDrag` | src/components/ui/FileUploader.tsx:39-43 | The highlight is on exactly for `dragenter` and `dragover`. |
| `FileUploader.Uploader.ValidateBatch` | src/components/ui/FileUploader.tsx:51 | The loop returns the accepted files in batch order, and leaves the slot holding the last file's verdict. |
| `FileUploader.Uploader.AddFiles` | src/components/ui/FileUploader.tsx:50-52 | The accepted files are appended after the current list, and the owner is told whether the list is non-empty. |
| `FileUploader.Uploader.HandleDrop` | src/components/ui/FileUploader.tsx:45-53 | A drop turns the highlight off and adds the dropped files as `AddFiles` does. |
| `FileUploader.Uploader.HandleFileInput` | src/components/ui/FileUploader.tsx:55-61 | A picker event with files adds them; one without a file list changes nothing. |
| `FileUploader.Uploader.RemoveFile` | src/components/ui/FileUploader.tsx:63-65 | The list becomes `Without` of the old one: every entry that is this file object goes, the others stay in order. The owner is told, and the error slot is untouched. |
| `Text.IsJsSpace` | src/components/main/AddUser.tsx:142 | The characters `trim()` strips: ECMAScript white space and line terminators (tab, line feed, vertical tab, form feed, carriage return, space, no-break space, the Unicode space separators, line and paragraph separators, and the byte-order mark). |
| `Text.TrimStart` | src/components/main/AddUser.tsx:142 | Trimming the front leaves a suffix that starts with a non-space, after a prefix made only of white space. |
| `Text.TrimEnd` | src/components/main/AddUser.tsx:142 | Trimming the back leaves a prefix that ends with a non-space, before a suffix made only of white space. |
| `Text.Trim` | src/components/main/AddUser.tsx:142 | `trim()`: white space removed from both ends. |
| `Text.IsBlank` | src/components/main/AddUser.tsx:142 | `!s.trim()`: trimming leaves the empty string. |
| `Text.BlankIffAllSpace` | src/components/main/AddUser.tsx:142 | `trim()` gives the empty string exactly when every character is white space. |
| `Text.Lower` | src/components/ui/FileUploader.tsx:22 | `toLowerCase()` on ASCII letters: same length, each capital A-Z mapped to its small letter. |
| `Text.LastDot` | src/components/ui/FileUploader.tsx:22 | The position found holds a '.', and no '.' follows it. |
| `Text.AfterLastDot` | src/components/ui/FileUploader.tsx:22 | `split('.').pop()`: the text after the last '.', or the whole string when there is none. |
| `Text.AfterLastDotSplits` | src/components/ui/FileUploader.tsx:22 | The text after the last '.' has no '.', and putting it back after the dot recovers the name. |
| `Text.AfterLastDotNoDot` | src/components/ui/FileUploader.tsx:22 | A name without a '.' is returned whole. |
| `Text.SpaceBeforeCapitals` | src/components/main/AddUser.tsx:143 | `replace(/([A-Z])/g, ' $1')`: a space before each ASCII capital; the result is never shorter. |
| `Text.NoCapitalsUnchanged` | src/components/main/AddUser.tsx:143 | Text without capitals is left as it is. |
| `Text.CapitalisedWord` | src/components/main/AddUser.tsx:143 | A word with only its first letter a capital gets one space in front. |
| `Text.PrefixSpace` | src/components/main/AddUser.tsx:143 | A capital followed by unchanged text gets one space in front. |
| `Text.TailWithoutCapitals` | src/components/main/AddUser.tsx:143 | The tail of a capitalised word is left as it is. |
| `Text.SpaceBeforeCapitalsAppend` | src/components/main/AddUser.tsx:143 | The camel-case rewrite of a concatenation is the concatenation of the rewrites. |
| `Text.SpaceBeforeCapitalsInverse` | src/components/main/AddUser.tsx:143 | The rewrite only inserts spaces: removing all spaces afterwards gives the input without its spaces. |
| `Text.SpaceBeforeCapitalsRoundTrip` | src/components/main/AddUser.tsx:143 | A key without spaces is recovered exactly from its message name. |
| `Text.NatToString` | src/components/ui/FileUploader.tsx:31 | The decimal rendering of a whole number: non-empty and all digits. |
| `Text.NatToStringRoundTrip` | src/components/ui/FileUploader.tsx:31 | The decimal rendering of the limit in the size message reads back as the same number. |
| `Text.Contains` | src/components/main/Users.tsx:55 | `includes`: the query occurs as a contiguous run somewhere in the text. |
| `Text.ContainsEmpty` | src/components/main/Users.tsx:55 | Every string includes the empty query. |
| `UserList.Matches` | src/components/main/Users.tsx:55 | A tenant matches when its lower-cased name includes the lower-cased query, or its number includes the query as typed. |
| `UserList.Search` | src/components/main/Users.tsx:53-56 | Filtering never lengthens the list. |
| `UserList.SearchCounts` | src/components/main/Users.tsx:53-56 | A matching tenant keeps all its occurrences, and a non-matching one keeps none. |
| `UserList.SearchKeepsExactlyMatches` | src/components/main/Users.tsx:53-56 | A tenant is listed if and only if it is in the data and matches the query: by lower-cased name, or by the number as typed. |
| `UserList.EmptyQueryKeepsNamedOrNumbered` | src/components/main/Users.tsx:55 | An empty search box keeps exactly the tenants that have a name or a number. |
| `UserList.Compare` | src/components/main/Users.tsx:57-61 | The comparator chosen by the drop-down: name order, newest date first, most active users first, or a tie. |
| `UserList.InsertBy` | src/components/main/Users.tsx:57-62 | Insertion into a sorted run goes after every element that does not compare above the new one; the run grows by one. |
| `UserList.SortBy` | src/components/main/Users.tsx:57-62 | The stable `sort`: insert each element in list order; the length is kept. |
| `UserList.Listed` | src/components/main/Users.tsx:53-62 | The tenants shown: the matching ones, sorted by the chosen comparator. |
| `UserList.InsertByCounts` | src/components/main/Users.tsx:57-62 | Inserting adds exactly the one tenant. |
| `UserList.SortByPermutes` | src/components/main/Users.tsx:57-62 | Sorting is a permutation of its input. |
| `UserList.SortByAllTiedKeepsOrder` | src/components/main/Users.tsx:61 | The stable sort leaves the order alone under a comparator that ties everything. |
| `UserList.InsertAfterTies` | src/components/main/Users.tsx:61 | Under a comparator that ties everything, a new element goes last. |
| `UserList.PrependKeepsDescending` | src/components/main/Users.tsx:57-62 | A head whose key bounds every key of a sorted run keeps it sorted. |
| `UserList.InsertByKeepsDescending` | src/components/main/Users.tsx:57-62 | Inserting by a comparator that orders by a key keeps a run sorted, largest key first. |
| `UserList.SortByDescending` | src/components/main/Users.tsx:57-62 | Sorting by a comparator that is a key difference lists the largest keys first. |
| `UserList.ActiveCount` | src/components/main/Users.tsx:60 | `activeUsers ?? 0`: the count, or 0 when it is missing. |
| `UserList.ActiveUsersMostFirst` | src/components/main/Users.tsx:60 | Ordered by active users, the counts never increase down the list, a missing count being 0. |
| `UserList.JoinDateNewestFirst` | src/components/main/Users.tsx:59 | Ordered by join date, dates never increase down the list (newest first), when every listed tenant has a date. |
| `UserList.NameAscending` | src/components/main/Users.tsx:58 | Ordered by name, names go in `localeCompare` order, when every listed tenant has a name. |
| `UserList.OtherOrderKeepsListOrder` | src/components/main/Users.tsx:61 | Any other choice of order shows the matching tenants in list order. |
| `UserList.ListedIsSearchPermuted` | src/components/main/Users.tsx:53-62 | Whatever the order, the list shows exactly the matching tenants, each as often as it occurs. |

## Left out

- JSX rendering, styling and icons are not modelled. Only the state the handlers change and the layout decision are.
- The language dictionary is not part of this model: `text.x || 'fallback'` is taken to give the English fallback.
- console.log calls in `validateForm` and `handleAddUser` are output only and are left out.
- preventDefault/`stopPropagation` on events are browser side effects and are left out.
- React's batching of state updates and re-renders are left out. Each handler's updates are applied at once, in source order.
- The upload effect's dependency on the owner's callback identity is not modelled. The owner passes a new arrow function on every render, so the effect may also re-run on re-renders; it then only repeats the same report.
- The timer is a counter of pending dismiss callbacks. Their three-second delay and firing order are left to the caller (`TenantForm.SuccessTimerFires`).
- Viewport width is taken as a parameter. The media-query listeners of `useScreen` are not modelled.
- FileUploader.Uploader.constructor takes the `maxFileSize` prop as a whole number of MiB. A limit that is not a whole number of MiB would print a fractional number in the size message, and floating-point formatting is not modelled.
- Text.Lower lower-cases ASCII letters only. That is exact for the file-type check, because the allowed extensions are ASCII. In the tenant search, a match that differs only in non-ASCII case (É against é) is missed. Context-dependent lower-casing, such as the Greek final sigma, can make the two differ in either direction.
- UserList.Compare takes `localeCompare` as an abstract `rank` function: `x.localeCompare(y)` is given the sign of `rank(x) - rank(y)`. Collation rules are not modelled.
- UserList.User takes the creation date as an already-parsed day number, or `None` when the date is missing or does not parse. Date parsing is not modelled.
- UserList.JoinDateNewestFirst: proved only when every listed tenant has a date. With a missing date, the source comparator returns 0 against everything (NaN `|| 0`) and is not a consistent order, so JavaScript's `sort` result is implementation-defined. The model's stable insertion sort fixes one outcome.
- UserList.NameAscending: proved only when every listed tenant has a name, for the same reason. A missing name compares 0 against everything, and a missing `b.name` is compared as the text "undefined".
- The placeholder tenant data in `Users.tsx` and the `UserCard` rendering are left out; the tenant list is a parameter.
