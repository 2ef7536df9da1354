# Vocabulary admin dashboard: selectors, forms and list pages

This project models, in Dafny, the client-side rules of a React admin
dashboard that manages a vocabulary database. The data is organised as
vocabularies, each with sections, each with categories, each with words. The
model covers three parts of the dashboard:

- **The searchable selector** (`Selector`, instantiated as
  `VocabularySelect`, `SectionSelect` and `CategorySelect`). It loads its
  options once per scope, filters them locally with a case-insensitive
  substring search, labels the controlled value, and reports picks. The
  state is a class with the component's six state fields. Its invariant is
  that the visible list is always the filter of the loaded options by the
  current term, which is the state after the filter effect has run.
- **The form pages**: create word, category, section and vocabulary
  (`WordCreate`, `CategoryCreate`, `SectionCreate`, `VocabularyCreate`),
  update word and section (`WordUpdate`, `SectionUpdate`) and sign-up
  (`SignUp`). The field setters are pure record updates. The cascading
  setters clear dependent fields. Required-field validation runs before any
  request. Each payload drops either the fields equal to `""` or the falsy
  fields. What happens after a response, and how the message is coloured,
  differ from page to page. Each page is a class over `formData`, `message`
  and `loading`.
- **The paginated list pages** (`ListPage`, instantiated as `WordList`,
  `CategoryList`, `SectionList` and `VocabularyList`). `fetchData` builds an
  ordered query string one `append` at a time, which is modelled as a method
  with a loop. It merges the server's pagination with `??` fallbacks and
  keeps the rows on failure. The filter, debounce and Prev/Next/page
  handlers change the page and the filter values.

Shared modules:

- `Wrappers` holds `Option`.
- `Seqs` holds an order-preserving filter.
- `Text` covers ASCII `toLowerCase`, `includes` and `trim`.
- `Js` covers JavaScript values, truthiness, objects as ordered entries,
  and the two payload filters.
- `Api` holds the three outcomes of a request: `Success`, `ApiFail`
  (carrying the server's `message`, if it sent one) and `NetworkFail`. It
  also holds the message fallbacks and the loading > error > "no results" >
  rows precedence.
- `Forms` holds what the form pages share.

Each network request is split into a start event (the method that returns
the request) and a completion event carrying the outcome. An upload is a
completion event carrying the uploaded file's path, which is `""` when the
upload failed.

## Model

The table lists every member whose contract states something about the
source. The definitions those contracts are stated over are listed with
their source lines under "## Definitions".

| member | source | states |
|---|---|---|
| Seqs.Filter | app/components/vocabularySelect.tsx:61-63 | `Array.prototype.filter`: the result is no longer than the input, every kept element satisfies the predicate, and every element that satisfies it is kept |
| Seqs.FilterIsSubsequence | app/components/vocabularySelect.tsx:61-63 | the filter's result is a subsequence of its input: the kept elements appear in their original order and as often |
| Seqs.FilterAppend | app/components/vocabularySelect.tsx:61-63 | filtering a concatenation is the concatenation of the filtered parts |
| Seqs.FilterKeepsAll | app/components/vocabularySelect.tsx:57-58 | a filter that every element passes returns its input unchanged |
| Seqs.FilterCongruent | app/components/vocabularySelect.tsx:61-63 | two predicates that agree on every element filter alike |
| Text.Lower | app/components/vocabularySelect.tsx:62 | `toLowerCase` (ASCII): same length, and each character is lowercased |
| Text.LowerIdempotent | app/components/vocabularySelect.tsx:62 | lowercasing twice is lowercasing once |
| Text.Includes | app/components/vocabularySelect.tsx:62 | `includes` is true iff the needle occurs at some position |
| Text.Trim | app/routes/dashboard/word/create.tsx:75-76 | `trim`: the result is empty iff the input is all whitespace, has no whitespace at either end, and occurs inside the input |
| Js.Or | app/routes/dashboard/word/update.tsx:43-45 | `v \|\| fallback`: `v` when truthy, else the fallback |
| Js.Keys | app/routes/dashboard/word/create.tsx:90-92 | `Object.entries` keys in order |
| Js.Lookup | app/routes/dashboard/word/create.tsx:90-92 | a property is absent iff its key is not among the keys; a present one is an entry of the object |
| Js.Put | app/routes/dashboard/section/update.tsx:52-55 | `{ ...prev, [name]: value }`: the key takes the value, every other property is unchanged, and a new key is appended |
| Js.Get | app/routes/dashboard/word/update.tsx:43-45 | reading a missing property gives `undefined` |
| Js.LookupAt | app/routes/dashboard/word/create.tsx:90-92 | in an object with distinct keys, the i-th key looks up the i-th value |
| Js.OmitEmptyStringsAt | app/routes/dashboard/word/create.tsx:90-92 | after the `!== ""` filter the i-th key is absent iff its value is `""`, else kept with its value |
| Js.OmitFalsyAt | app/routes/dashboard/category/create.tsx:66-68 | after the truthy filter the i-th key is kept with its value iff that value is truthy |
| Js.OmitFalsyKeepsTruthy | app/routes/dashboard/category/create.tsx:66-68 | an object whose values are all truthy passes the truthy filter whole |
| Js.OmitNoNewKeys | app/routes/dashboard/word/create.tsx:90-92 | neither filter introduces a key |
| Js.PutKeepsDistinct | app/routes/dashboard/section/update.tsx:52-55 | a spread update keeps the keys distinct |
| Js.LookupFiltered | app/routes/dashboard/word/create.tsx:90-92 | filtering entries keeps a key's value iff the entry passes, and adds nothing |
| Js.LookupOmitEmptyStrings | app/routes/dashboard/word/update.tsx:74-76 | a key survives the `!== ""` filter iff present with a value other than `""` |
| Js.LookupOmitFalsy | app/routes/dashboard/section/update.tsx:68-70 | a key survives the truthy filter iff present with a truthy value |
| Js.OmitEmptyStringsExact | app/routes/dashboard/word/create.tsx:90-92 | an entry is in the `!== ""` payload iff it is in the object with a value other than `""` |
| Js.OmitFalsyExact | app/routes/dashboard/category/create.tsx:66-68 | an entry is in the truthy payload iff it is in the object with a truthy value |
| Js.OmitFiltersAgree | app/routes/dashboard/category/create.tsx:66-68 | where only `""` is falsy, the two filters give the same payload |
| Js.AllStringsFalsyOnlyWhenEmpty | app/routes/dashboard/category/create.tsx:66-68 | among strings, only `""` is falsy |
| Js.OmitFiltersDifferOnNull | app/routes/dashboard/section/update.tsx:68-70 | a `null` property is kept by the `!== ""` filter and dropped by the truthy filter |
| Api.MessageOr | app/routes/dashboard/word/list.tsx:94 | `message \|\| fallback`: a non-empty server message wins, else the fallback |
| Api.FailureText | app/routes/dashboard/word/list.tsx:93-98 | a reported failure gives the message or the fallback, no answer gives the network text, and the result is never empty when both texts are non-empty |
| Api.BodyOf | app/routes/dashboard/word/list.tsx:189-195 | loading, else the error, else the "no results" line for an empty list, else the rows; each case iff its condition |
| Selector.Visible | app/components/vocabularySelect.tsx:56-66 | the visible options are loaded options that match the term; every loaded option that matches is visible |
| Selector.EmptyTermMatches | app/components/vocabularySelect.tsx:57-58 | the empty term matches every option |
| Selector.VisibleIsFilter | app/components/vocabularySelect.tsx:57-64 | the empty-term shortcut agrees with the filter: for every term the visible list is the order-preserving filter of the options by `Matches` |
| Selector.SearchIgnoresCase | app/components/vocabularySelect.tsx:60-63 | two terms that lowercase alike show the same options |
| Selector.FindIndex | app/components/vocabularySelect.tsx:83 | `find` by id: the first option with that id, or none when no option has it |
| Selector.SelectedLabel | app/components/vocabularySelect.tsx:81-87 | the All label for `""` when All is offered, else the display of the first loaded option with that id, else the placeholder |
| Selector.LoadQuery | app/components/sectionSelect.tsx:45-46 | the load request carries the scope parameter iff the dropdown is scoped and the id is non-empty |
| Selector.SearchableSelect.constructor | app/components/vocabularySelect.tsx:23-28 | no options, empty term, closed, not loading, no error |
| Selector.SearchableSelect.StartLoad | app/components/sectionSelect.tsx:42-50 | `loading` is set, the query is `LoadQuery`, and nothing else changes |
| Selector.SearchableSelect.FinishLoad | app/components/vocabularySelect.tsx:40-50 | success replaces the options and refilters them without resetting `error`; failure records the error text and keeps the options; `loading` ends false |
| Selector.SearchableSelect.TypeTerm | app/components/vocabularySelect.tsx:105 | the term is set, the visible list is refiltered, and nothing else changes |
| Selector.SearchableSelect.Toggle | app/components/vocabularySelect.tsx:92 | only `showDropdown` flips |
| Selector.SearchableSelect.ClickOutside | app/components/vocabularySelect.tsx:69-75 | only `showDropdown` becomes false |
| Selector.SearchableSelect.Pick | app/components/vocabularySelect.tsx:133-137 | emits the option's id, closes the dropdown and clears the term, so all options become visible |
| Selector.SearchableSelect.PickAll | app/components/vocabularySelect.tsx:111-114 | emits `""` and closes the dropdown; the term and the visible list stay |
| Selector.SearchableSelect.Label | app/components/vocabularySelect.tsx:81-87 | the header is `SelectedLabel` over all loaded options |
| Selector.SearchableSelect.Body | app/components/sectionSelect.tsx:139-146 | a recorded error is shown whenever not loading; otherwise the loading > error > "No results found" > list precedence applies |
| Selector.FailThenSucceed | app/components/sectionSelect.tsx:53-61 | after a failed load, a successful load replaces the options but the error stays and is still shown |
| VocabularySelect.MatchesNameOnly | app/components/vocabularySelect.tsx:61-63 | a vocabulary matches iff its lowercased name contains the lowercased term |
| VocabularySelect.VisibleByName | app/components/vocabularySelect.tsx:57-64 | an option is visible iff its name matches; the empty term shows all options |
| VocabularySelect.LoadIsUnscoped | app/components/vocabularySelect.tsx:37-54 | the load has no query parameter and never reruns |
| VocabularySelect.LabelText | app/components/vocabularySelect.tsx:81-87 | "All vocabularies", else "name (type)" of the first match, else "Select vocabulary" |
| VocabularySelect.FailureTexts | app/components/vocabularySelect.tsx:43-48 | the message or "Failed to fetch vocabularies.", or "Network error" |
| SectionSelect.MatchesThreeFields | app/components/sectionSelect.tsx:69-83 | a section matches iff its name, vocabulary name or vocabulary type contains the term, ignoring case |
| SectionSelect.LoadIsScopedByVocabulary | app/components/sectionSelect.tsx:45-67 | `vocabulary=<id>` only for a non-empty id; the load reruns iff the id changes |
| SectionSelect.LabelText | app/components/sectionSelect.tsx:98-104 | "All sections", else "name [vocabulary name - vocabulary type]", else "Select section" |
| SectionSelect.FailureTexts | app/components/sectionSelect.tsx:56-61 | the message or "Failed to fetch sections.", or "Network error" |
| SectionSelect.EmptySectionsForVocabulary | app/components/sectionSelect.tsx:139-146 | a load for vocabulary `v1` asks for `vocabulary=v1`, and an empty answer shows "No results found" |
| CategorySelect.MatchesNameOnly | app/components/categorySelect.tsx:70-81 | a category matches iff its name contains the term, ignoring case |
| CategorySelect.SectionNameNotSearched | app/components/categorySelect.tsx:76-77 | the section name shown in the label is not searched |
| CategorySelect.SearchCatFindsCats | app/components/categorySelect.tsx:70-81 | "cat" over ["Cats", "Dogs"] leaves exactly ["Cats"] |
| CategorySelect.LoadIsScopedBySection | app/components/categorySelect.tsx:46-68 | `section=<id>` only for a non-empty id; the load reruns iff the id changes |
| CategorySelect.LabelText | app/components/categorySelect.tsx:96-102 | "All categories", else "name [section name]", else "Select category" |
| CategorySelect.FailureTexts | app/components/categorySelect.tsx:57-62 | the message or "Failed to fetch categories.", or "Network error" |
| Forms.NonEmpty | app/routes/dashboard/word/create.tsx:90-92 | a payload field is absent iff the form field is `""`, else it is the (truthy) string |
| Forms.SettledMessage | app/routes/dashboard/word/create.tsx:105-114 | the response's message; after a thrown error, the server message when non-empty, else the fallback |
| Forms.FailureLeavesMessage | app/routes/dashboard/word/create.tsx:109-114 | a thrown error always leaves a non-empty message |
| Forms.NavigationAfter | app/routes/dashboard/word/create.tsx:105-108 | the page navigates to its target iff a response came and the page leaves on any response or `success` is true |
| Forms.FailedPrefixIsRed | app/routes/dashboard/word/create.tsx:196-197 | a message starting with "Failed" is shown red by both colour tests |
| WordCreate.WithText | app/routes/dashboard/word/create.tsx:39-47 | only the named input's field changes |
| WordCreate.WithVocabulary | app/routes/dashboard/word/create.tsx:49-56 | sets the vocabulary and clears section and category; name, description and image stay |
| WordCreate.WithSection | app/routes/dashboard/word/create.tsx:58-64 | sets the section and clears the category; the rest stays |
| WordCreate.WithCategory | app/routes/dashboard/word/create.tsx:66-71 | only the category changes |
| WordCreate.WithImage | app/routes/dashboard/word/create.tsx:180-181 | only the image changes |
| WordCreate.Entries | app/routes/dashboard/word/create.tsx:90-91 | the form's six fields as distinct string-valued keys |
| WordCreate.PayloadFields | app/routes/dashboard/word/create.tsx:90-92 | each of the six fields is in the body, untrimmed, iff it is not `""` |
| WordCreate.PayloadNoOtherFields | app/routes/dashboard/word/create.tsx:90-92 | the body has no key beyond the six fields |
| WordCreate.VocabularyChangeResetsDependents | app/routes/dashboard/word/create.tsx:149-159 | after a vocabulary change the category selector is hidden, the form cannot be submitted, and the section selector shows iff the vocabulary is non-empty |
| WordCreate.OptionalFieldsNotValidated | app/routes/dashboard/word/create.tsx:74-82 | category and image do not affect validation |
| WordCreate.NameCheckedTrimmedSentUntrimmed | app/routes/dashboard/word/create.tsx:74-92 | a form that passes validation sends name, vocabulary and section exactly as typed |
| WordCreate.FallbackIsRed | app/routes/dashboard/word/create.tsx:113 | "Failed to create word." is shown red |
| WordCreate.CreateWordPage.constructor | app/routes/dashboard/word/create.tsx:27-37 | a blank form, no message, not loading |
| WordCreate.CreateWordPage.HandleChange | app/routes/dashboard/word/create.tsx:39-47 | the form becomes `WithText`; the message and `loading` stay |
| WordCreate.CreateWordPage.HandleVocabularyChange | app/routes/dashboard/word/create.tsx:49-56 | the form becomes `WithVocabulary` |
| WordCreate.CreateWordPage.HandleSectionChange | app/routes/dashboard/word/create.tsx:58-64 | the form becomes `WithSection` |
| WordCreate.CreateWordPage.HandleCategoryChange | app/routes/dashboard/word/create.tsx:66-71 | the form becomes `WithCategory` |
| WordCreate.CreateWordPage.UploadDone | app/routes/dashboard/word/create.tsx:180-181 | the form becomes `WithImage` |
| WordCreate.CreateWordPage.StartSubmit | app/routes/dashboard/word/create.tsx:73-92 | a form missing a required field gets "Please fill all required fields." and no request; otherwise the message is cleared, `loading` is set and the `""`-free payload is posted |
| WordCreate.CreateWordPage.FinishSubmit | app/routes/dashboard/word/create.tsx:105-117 | the message is settled, the page navigates to /word only for a response with `success`, and `loading` ends false |
| WordCreate.SubmitWithoutVocabulary | app/routes/dashboard/word/create.tsx:74-82 | a form with a name and description but no vocabulary sends nothing and shows the validation message |
| CategoryCreate.WithName | app/routes/dashboard/category/create.tsx:31-37 | only the name changes |
| CategoryCreate.WithVocabulary | app/routes/dashboard/category/create.tsx:39-45 | sets the vocabulary and clears the section |
| CategoryCreate.WithSection | app/routes/dashboard/category/create.tsx:47-52 | only the section changes |
| CategoryCreate.Entries | app/routes/dashboard/category/create.tsx:66-67 | the form's three fields as distinct string-valued keys |
| CategoryCreate.PayloadFields | app/routes/dashboard/category/create.tsx:66-68 | each field is in the body iff non-empty, and the truthy filter equals the `""` filter here |
| CategoryCreate.ValidFormPostedWhole | app/routes/dashboard/category/create.tsx:55-68 | a form that passes validation is posted with all three fields |
| CategoryCreate.VocabularyChangeBlocksSubmit | app/routes/dashboard/category/create.tsx:39-58 | after a vocabulary change the form fails validation until a section is chosen again |
| CategoryCreate.FallbackIsRed | app/routes/dashboard/category/create.tsx:137 | "Failed to create category." is shown red |
| CategoryCreate.CreateCategoryPage.constructor | app/routes/dashboard/category/create.tsx:22-29 | a blank form, no message, not loading |
| CategoryCreate.CreateCategoryPage.HandleChange | app/routes/dashboard/category/create.tsx:31-37 | the form becomes `WithName` |
| CategoryCreate.CreateCategoryPage.HandleVocabularyChange | app/routes/dashboard/category/create.tsx:39-45 | the form becomes `WithVocabulary` |
| CategoryCreate.CreateCategoryPage.HandleSectionChange | app/routes/dashboard/category/create.tsx:47-52 | the form becomes `WithSection` |
| CategoryCreate.CreateCategoryPage.StartSubmit | app/routes/dashboard/category/create.tsx:54-68 | validation message and no request, or a cleared message, `loading` and the truthy payload |
| CategoryCreate.CreateCategoryPage.FinishSubmit | app/routes/dashboard/category/create.tsx:81-91 | every response leads to /category whatever `success` says; a thrown error gives the server message or "Failed to create category." |
| SectionCreate.WithName | app/routes/dashboard/section/create.tsx:31-39 | only the name changes |
| SectionCreate.WithVocabulary | app/routes/dashboard/section/create.tsx:41-46 | only the vocabulary changes (no cascade) |
| SectionCreate.WithImage | app/routes/dashboard/section/create.tsx:120-121 | only the image changes |
| SectionCreate.Entries | app/routes/dashboard/section/create.tsx:61-62 | the form's three fields as distinct string-valued keys |
| SectionCreate.PayloadFields | app/routes/dashboard/section/create.tsx:61-63 | each field is in the body iff non-empty |
| SectionCreate.ImageNotValidated | app/routes/dashboard/section/create.tsx:49-52 | the image does not affect validation |
| SectionCreate.FallbackIsRed | app/routes/dashboard/section/create.tsx:136 | "Failed to create section." is shown red |
| SectionCreate.CreateSectionPage.constructor | app/routes/dashboard/section/create.tsx:22-29 | a blank form, no message, not loading |
| SectionCreate.CreateSectionPage.HandleChange | app/routes/dashboard/section/create.tsx:31-39 | the form becomes `WithName` |
| SectionCreate.CreateSectionPage.HandleVocabularyChange | app/routes/dashboard/section/create.tsx:41-46 | the form becomes `WithVocabulary` |
| SectionCreate.CreateSectionPage.UploadDone | app/routes/dashboard/section/create.tsx:120-121 | the form becomes `WithImage` |
| SectionCreate.CreateSectionPage.StartSubmit | app/routes/dashboard/section/create.tsx:48-63 | validation message and no request, or a cleared message, `loading` and the truthy payload |
| SectionCreate.CreateSectionPage.FinishSubmit | app/routes/dashboard/section/create.tsx:76-86 | every response leads to /section; a thrown error gives the server message or "Failed to create section." |
| VocabularyCreate.WithInput | app/routes/dashboard/vocabulary/create.tsx:32-42 | only the named input's field changes |
| VocabularyCreate.WithImage | app/routes/dashboard/vocabulary/create.tsx:127-128 | only the image changes |
| VocabularyCreate.Entries | app/routes/dashboard/vocabulary/create.tsx:52-53 | the four fields, with the type under the key `type`, as distinct string-valued keys |
| VocabularyCreate.PayloadFields | app/routes/dashboard/vocabulary/create.tsx:52-54 | each field is in the body iff non-empty |
| VocabularyCreate.BlankFormPostsNothing | app/routes/dashboard/vocabulary/create.tsx:44-54 | the blank form is posted as an empty object |
| VocabularyCreate.CreateVocabularyPage.constructor | app/routes/dashboard/vocabulary/create.tsx:22-30 | a blank form, no message, not loading |
| VocabularyCreate.CreateVocabularyPage.HandleChange | app/routes/dashboard/vocabulary/create.tsx:32-42 | the form becomes `WithInput` |
| VocabularyCreate.CreateVocabularyPage.UploadDone | app/routes/dashboard/vocabulary/create.tsx:127-128 | the form becomes `WithImage` |
| VocabularyCreate.CreateVocabularyPage.StartSubmit | app/routes/dashboard/vocabulary/create.tsx:44-54 | with no validation, every submit clears the message, sets `loading` and posts the truthy payload |
| VocabularyCreate.CreateVocabularyPage.FinishSubmit | app/routes/dashboard/vocabulary/create.tsx:67-77 | every response leads to /vocabulary; a thrown error gives the server message or "Failed to create vocabulary." |
| WordUpdate.Defaulted | app/routes/dashboard/word/update.tsx:43-45 | `v \|\| ""`: a truthy value is kept, anything else becomes `""` |
| WordUpdate.Loaded | app/routes/dashboard/word/update.tsx:42-46 | the form takes name, description and image from the response, each defaulted |
| WordUpdate.LoadIgnoresOtherFields | app/routes/dashboard/word/update.tsx:42-46 | response properties other than the three fields do not change the loaded form |
| WordUpdate.WithText | app/routes/dashboard/word/update.tsx:55-63 | only the named field changes |
| WordUpdate.WithImage | app/routes/dashboard/word/update.tsx:135-136 | only the image changes |
| WordUpdate.Entries | app/routes/dashboard/word/update.tsx:74-75 | the form's three fields as distinct keys |
| WordUpdate.PayloadFields | app/routes/dashboard/word/update.tsx:74-76 | each field is dropped iff it equals `""` |
| WordUpdate.LoadedPayloadIsTruthyFields | app/routes/dashboard/word/update.tsx:42-76 | right after a load, the `!== ""` filter sends exactly the truthy fields |
| WordUpdate.UpdateWordPage.constructor | app/routes/dashboard/word/update.tsx:22-29 | a blank form, no message, not loading |
| WordUpdate.UpdateWordPage.FinishLoad | app/routes/dashboard/word/update.tsx:42-49 | a response, a parsed JSON object with distinct keys, replaces the form with `Loaded`; a failure leaves it |
| WordUpdate.UpdateWordPage.HandleChange | app/routes/dashboard/word/update.tsx:55-63 | the form becomes `WithText` |
| WordUpdate.UpdateWordPage.UploadDone | app/routes/dashboard/word/update.tsx:135-136 | the form becomes `WithImage` |
| WordUpdate.UpdateWordPage.StartUpdate | app/routes/dashboard/word/update.tsx:65-76 | without an id nothing changes and nothing is sent; otherwise the message is cleared, `loading` is set and the `""`-free payload is sent |
| WordUpdate.UpdateWordPage.FinishUpdate | app/routes/dashboard/word/update.tsx:89-101 | the message is settled with "Failed to update word."; the page navigates to /word only when `success` is true |
| SectionUpdate.WithName | app/routes/dashboard/section/update.tsx:50-56 | the name property is set and every other property is unchanged |
| SectionUpdate.WithImage | app/routes/dashboard/section/update.tsx:120-121 | the image property is set and every other property is unchanged |
| SectionUpdate.PayloadKeepsTruthyProperties | app/routes/dashboard/section/update.tsx:68-70 | any property of the form, not only name and image, is sent iff it is truthy; the page's `Valid` supplies the distinct keys this needs |
| SectionUpdate.EditedNamePayload | app/routes/dashboard/section/update.tsx:50-70 | after a name edit the body's name is the new name iff non-empty, and every other property is as before |
| SectionUpdate.LoadedIdIsSentBack | app/routes/dashboard/section/update.tsx:41-70 | a loaded `_id` is sent back, and an empty image is dropped |
| SectionUpdate.UpdateSectionPage.constructor | app/routes/dashboard/section/update.tsx:21-27 | the blank name/image form, no message, not loading; the form's keys are distinct (`Valid`) |
| SectionUpdate.UpdateSectionPage.FinishLoad | app/routes/dashboard/section/update.tsx:41-44 | a response's data, a parsed JSON object with distinct keys, becomes the form verbatim; a failure leaves it; `Valid` is kept |
| SectionUpdate.UpdateSectionPage.HandleChange | app/routes/dashboard/section/update.tsx:50-56 | the form becomes `WithName`, and its keys stay distinct |
| SectionUpdate.UpdateSectionPage.UploadDone | app/routes/dashboard/section/update.tsx:120-121 | the form becomes `WithImage`, and its keys stay distinct |
| SectionUpdate.UpdateSectionPage.StartUpdate | app/routes/dashboard/section/update.tsx:58-70 | without an id nothing happens; otherwise the truthy payload is sent, and every property of the page's form is in it exactly when truthy, with its value |
| SectionUpdate.UpdateSectionPage.FinishUpdate | app/routes/dashboard/section/update.tsx:83-93 | every response leads to /section; a thrown error gives the server message or "Failed to update section." |
| SignUp.WithInput | app/routes/auth/signUp.tsx:35-41 | only the named form field changes |
| SignUp.BodyOmitsConfirmation | app/routes/auth/signUp.tsx:53-56 | the body has exactly the keys name, phone, reg_key and password, with the password as typed and no confirmation |
| SignUp.SignUpPage.constructor | app/routes/auth/signUp.tsx:20-31 | a blank form and confirmation, password hidden, no message, `success` null |
| SignUp.SignUpPage.HandleChange | app/routes/auth/signUp.tsx:35-41 | the form becomes `WithInput`; nothing else changes |
| SignUp.SignUpPage.SetConfirmPassword | app/routes/auth/signUp.tsx:130 | only the confirmation changes |
| SignUp.SignUpPage.TogglePasswordVisible | app/routes/auth/signUp.tsx:116 | only the visibility flips |
| SignUp.SignUpPage.StartSignUp | app/routes/auth/signUp.tsx:43-56 | a mismatch gives `success` false, "Passwords do not match." (red) and no request; otherwise the cleared message and the whole form is posted |
| SignUp.SignUpPage.FinishSignUp | app/routes/auth/signUp.tsx:57-69 | `success` is the response's flag (false after a thrown error), the message is settled with "Something went wrong.", and the page goes to /login iff the message shows green |
| ListPage.Decimal | app/routes/dashboard/word/list.tsx:78 | `toString` of a page number: decimal digits, no leading zero |
| ListPage.ParseDecimalInverts | app/routes/dashboard/word/list.tsx:78 | the server reads back exactly the page number sent |
| ListPage.IfSet | app/routes/dashboard/word/list.tsx:74 | a parameter is appended iff its value is non-empty |
| ListPage.OptionalParamsSent | app/routes/dashboard/word/list.tsx:74-77 | a pair is among the optional parameters iff its key is an optional key with that non-empty value |
| ListPage.Query | app/routes/dashboard/word/list.tsx:73-79 | the optional parameters, then `page`, then `limit=10`, always last |
| ListPage.BuildQuery | app/routes/dashboard/word/list.tsx:73-79 | the parameters appended one by one give exactly `Query` |
| ListPage.Merged | app/routes/dashboard/word/list.tsx:86-92 | the server page, else the requested page; the server limit, else 10; the total and both flags copied |
| ListPage.PrevPage | app/routes/dashboard/word/list.tsx:262 | `Math.max(1, p - 1)`: one less, never below 1 |
| ListPage.PageNumbers | app/routes/dashboard/word/list.tsx:268 | the buttons are exactly 1..totalPage in order |
| ListPage.NextEnabledPastLastPage | app/routes/dashboard/word/list.tsx:283-285 | Next is disabled only on exactly the known last page, so it stays enabled beyond it |
| ListPage.StepsStayInRange | app/routes/dashboard/word/list.tsx:258-286 | from a page in range, an enabled Next or Prev lands on a page in range |
| ListPage.ListPage.constructor | app/routes/dashboard/word/list.tsx:47-64 | empty filters, page 1, no rows, the initial pagination, not loading, no error |
| ListPage.ListPage.StartFetch | app/routes/dashboard/word/list.tsx:68-79 | `loading` is set, the error cleared, and the request's query is `Query` of the current filters and page |
| ListPage.ListPage.FinishFetch | app/routes/dashboard/word/list.tsx:84-100 | success replaces the rows and merges the pagination; failure sets the error and keeps rows and pagination; `loading` ends false |
| ListPage.ListPage.SetFilter | app/routes/dashboard/word/list.tsx:149-168 | only that filter changes and the page becomes 1; the fetch reruns iff the filter or the page changed |
| ListPage.ListPage.TypeSearch | app/routes/dashboard/word/list.tsx:177 | only the search text changes |
| ListPage.ListPage.DebounceFired | app/routes/dashboard/word/list.tsx:107-112 | the page becomes 1 and a fetch runs with the page as it was, and a second fetch follows iff that page was not 1 |
| ListPage.ListPage.Prev | app/routes/dashboard/word/list.tsx:260-262 | the page goes down by one |
| ListPage.ListPage.Next | app/routes/dashboard/word/list.tsx:282-286 | the page goes up by one |
| ListPage.ListPage.GoToPage | app/routes/dashboard/word/list.tsx:268-272 | the page becomes the button's number; a fetch follows iff it differs |
| ListPage.ListPage.Body | app/routes/dashboard/word/list.tsx:189-195 | a recorded error is shown whenever not loading; otherwise loading > error > "No results found." > rows |
| ListPage.FailureKeepsRows | app/routes/dashboard/word/list.tsx:93-98 | after a success and then a failure, the rows and pagination are those of the success and the error is shown |
| WordList.QueryOrder | app/routes/dashboard/word/list.tsx:73-79 | search, vocabulary, section, category (each only if non-empty), then `page` and `limit=10` |
| WordList.EffectDependencies | app/routes/dashboard/word/list.tsx:103-105 | the fetch reruns iff the page, vocabulary, section or category changes (not the search) |
| WordList.FailureTexts | app/routes/dashboard/word/list.tsx:93-97 | the message or "Failed to load data.", or "Network error." |
| WordList.VocabularyChangeKeepsDependents | app/routes/dashboard/word/list.tsx:147-168 | a vocabulary change keeps the section and category filters and sets page 1 |
| CategoryList.QueryOrder | app/routes/dashboard/category/list.tsx:63-68 | search, vocabulary, section (each only if non-empty), then `page` and `limit=10` |
| CategoryList.EffectDependencies | app/routes/dashboard/category/list.tsx:94-96 | the fetch reruns iff the page, vocabulary or section changes |
| CategoryList.FailureTexts | app/routes/dashboard/category/list.tsx:84-88 | the message or "Failed to load data.", or "Network error." |
| CategoryList.VocabularyChangeKeepsSection | app/routes/dashboard/category/list.tsx:138-151 | a vocabulary change keeps the section filter and sets page 1 |
| SectionList.QueryOrder | app/routes/dashboard/section/list.tsx:61-65 | vocabulary, then search (each only if non-empty), then `page` and `limit=10` |
| SectionList.EffectDependencies | app/routes/dashboard/section/list.tsx:91-93 | the fetch reruns iff the page or the vocabulary changes |
| SectionList.FailureTexts | app/routes/dashboard/section/list.tsx:81-85 | the message or "Failed to load data", or "Network error" |
| VocabularyList.TypeValues | app/routes/dashboard/vocabulary/list.tsx:28-32 | the type filter takes exactly `""`, "modern" and "history"; "All" sends no type |
| VocabularyList.QueryOrder | app/routes/dashboard/vocabulary/list.tsx:60-64 | type, then search (each only if non-empty), then `page` and `limit=10` |
| VocabularyList.EffectDependencies | app/routes/dashboard/vocabulary/list.tsx:91-93 | the fetch reruns iff the page or the type changes |
| VocabularyList.FailureTexts | app/routes/dashboard/vocabulary/list.tsx:80-84 | the message or "Failed to load data", or "Network error" |
| VocabularyList.ChooseHistory | app/routes/dashboard/vocabulary/list.tsx:134-137 | after a load reports three pages and page 3 is opened, choosing "History" asks for `type=history&page=1&limit=10` |

## Definitions

These carry no contract of their own; each transcribes the source lines
named, and the lemmas in the table above are stated over them.

| definition | source | transcribes |
|---|---|---|
| WordCreate.MissingRequired | app/routes/dashboard/word/create.tsx:73-82 | the name or description is blank after `trim`, or no vocabulary or section is chosen |
| CategoryCreate.MissingRequired | app/routes/dashboard/category/create.tsx:55-58 | the name is blank after `trim`, or no vocabulary or section is chosen |
| SectionCreate.MissingRequired | app/routes/dashboard/section/create.tsx:49-52 | the name is blank after `trim`, or no vocabulary is chosen |
| WordCreate.Payload | app/routes/dashboard/word/create.tsx:90-92 | the form's entries without those equal to `""` |
| CategoryCreate.Payload | app/routes/dashboard/category/create.tsx:66-68 | the form's entries with truthy values |
| SectionCreate.Payload | app/routes/dashboard/section/create.tsx:61-63 | the form's entries with truthy values |
| VocabularyCreate.Payload | app/routes/dashboard/vocabulary/create.tsx:52-54 | the form's entries with truthy values |
| WordUpdate.Payload | app/routes/dashboard/word/update.tsx:74-76 | the form's entries without those equal to `""` |
| SectionUpdate.Payload | app/routes/dashboard/section/update.tsx:68-70 | the form object's entries with truthy values |
| Js.OmitEmptyStrings | app/routes/dashboard/word/create.tsx:90-92 | `Object.entries(o).filter(([_, v]) => v !== "")` |
| Js.OmitFalsy | app/routes/dashboard/category/create.tsx:66-68 | `Object.entries(o).filter(([_, v]) => v)` |
| Js.Truthy | app/routes/dashboard/category/create.tsx:67 | JavaScript truthiness: `undefined`, `null`, `false` and `""` are falsy |
| WordCreate.MessageRed | app/routes/dashboard/word/create.tsx:193-200 | the lowercased message contains "failed" or "error" |
| CategoryCreate.MessageRed | app/routes/dashboard/category/create.tsx:134-140 | the lowercased message contains "failed" |
| SectionCreate.MessageRed | app/routes/dashboard/section/create.tsx:133-139 | the lowercased message contains "failed" |
| WordUpdate.MessageRed | app/routes/dashboard/word/update.tsx:148-155 | the lowercased message contains "failed" or "error" |
| SectionUpdate.MessageRed | app/routes/dashboard/section/update.tsx:133-139 | the lowercased message contains "failed" |
| SignUp.MessageGreen | app/routes/auth/signUp.tsx:140-145 | green exactly when `success` is true, red for false and for `null` |
| Forms.MentionsFailed | app/routes/dashboard/category/create.tsx:137 | `message.toLowerCase().includes("failed")` |
| Forms.MentionsFailedOrError | app/routes/dashboard/word/create.tsx:196-197 | `includes("failed") \|\| includes("error")` on the lowercased message |
| WordCreate.SectionSelectShown | app/routes/dashboard/word/create.tsx:149-157 | the section selector is rendered when a vocabulary is chosen |
| WordCreate.CategorySelectShown | app/routes/dashboard/word/create.tsx:159-167 | the category selector is rendered when a section is chosen |
| CategoryCreate.SectionSelectShown | app/routes/dashboard/category/create.tsx:116-124 | the section selector is rendered when a vocabulary is chosen |
| Selector.Matches | app/components/sectionSelect.tsx:75-80 | some search field, lowercased, includes the lowercased term |
| Selector.ReloadsOn | app/components/sectionSelect.tsx:41-67 | the load effect reruns when the scope prop changes, and only a scoped selector has one |
| VocabularySelect.VocabularyConfig | app/components/vocabularySelect.tsx:33-87 | searched by name, shown as "name (type)", its All label, placeholder and failure text, no scope |
| SectionSelect.SectionConfig | app/components/sectionSelect.tsx:41-80 | searched by name, vocabulary name and type, scoped by `vocabulary`, its labels and failure text |
| CategorySelect.CategoryConfig | app/components/categorySelect.tsx:42-77 | searched by name, scoped by `section`, its labels and failure text |
| ListPage.OptionalParams | app/routes/dashboard/word/list.tsx:74-77 | each optional filter appended, in order, when non-empty |
| ListPage.InitialPagination | app/routes/dashboard/word/list.tsx:55-61 | page 1, `LIMIT`, unknown total, no next or previous page |
| ListPage.EffectReruns | app/routes/dashboard/word/list.tsx:103-105 | the fetch effect reruns when the page or one of its listed filters changes |
| ListPage.BarVisible | app/routes/dashboard/word/list.tsx:258 | the bar is rendered for a known total above one |
| ListPage.PrevDisabled | app/routes/dashboard/word/list.tsx:261 | Prev is disabled on page 1 |
| ListPage.NextDisabled | app/routes/dashboard/word/list.tsx:283-285 | Next is disabled on exactly the known last page |
| WordList.WordListConfig | app/routes/dashboard/word/list.tsx:74-105 | optional keys search, vocabulary, section, category; effect on the three dropdowns; "Failed to load data." and "Network error." |
| CategoryList.CategoryListConfig | app/routes/dashboard/category/list.tsx:64-96 | optional keys search, vocabulary, section; effect on vocabulary and section; "Failed to load data." and "Network error." |
| SectionList.SectionListConfig | app/routes/dashboard/section/list.tsx:62-93 | optional keys vocabulary, search; effect on vocabulary; "Failed to load data" and "Network error" |
| VocabularyList.VocabularyListConfig | app/routes/dashboard/vocabulary/list.tsx:61-93 | optional keys type, search; effect on type; "Failed to load data" and "Network error" |

## Left out

- HTTP, axios and `fetch`, `API_URL`, the bearer header and the token in local storage. Each request is a start event that returns the request and a completion event carrying `Success`, `ApiFail` or `NetworkFail`.
- Navigation is recorded only as the target path a completion returns. The router, `app/routes.ts` and the dashboard layout are not part of this model.
- Debounce timers (700 ms and 1000 ms), `clearTimeout`, and races between overlapping fetches. The debounce is one atomic event, and fetches complete one at a time in order.
- DOM details: `contains()` for outside clicks, input events, JSX rendering and styling.
- The delete flows with `window.confirm` and `alert`.
- Full Unicode `toLowerCase`: lowercasing is ASCII only. `trim` uses ECMAScript's whitespace and line-terminator set (`Text.IsWhitespace`).
- Percent-encoding of query values by `URLSearchParams`. The query is the ordered sequence of key/value pairs.
- Date formatting.
- The upload component `app/components/uploadFile.tsx` is an event delivering a path, `""` on failure.
- The login page, the category and vocabulary update pages, the single-word page, the home page, the image modal and the tooltip are not part of this model.
- The failure of the word and section update loads is only logged to the console in the source, and is not modelled beyond leaving the form unchanged.
- The list pages' `pagination.totalPage && …` renders the digit `0` when `totalPage` is 0. `ListPage.BarVisible` models only that the bar is hidden.
- `Forms.MentionsFailed` and `Forms.MentionsFailedOrError` are proved only for messages starting with "Failed". That the validation message "Please fill all required fields." is shown green is not proved, because deciding `includes` on that literal is too costly for the solver.
- `Selector.SearchableSelect.FinishLoad` models `filteredOptions` after the filter effect has rerun. The intermediate render, where the visible list briefly equals the raw data, is not modelled.
- `ListPage.ListPage.Prev`, `Next` and `GoToPage` require the enabled state of their buttons, since a disabled or hidden button cannot be clicked.
- Integers are unbounded. Page numbers never come near JavaScript's safe-integer limit.
