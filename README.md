# Product Asset Uploader — a Dafny model of its form logic

The repository is a client-side React page for entering a product (title,
category, comma-separated tags) together with up to three images, followed by
a stubbed submit that only logs. This project lifts its three pieces of
logic out of the JSX and proves what they promise:

- **The image staging list** (`ImageUploader.tsx`, module `ImageUploader`):
  filtering a picked batch against the MIME allow-list `image/jpeg`,
  `image/png`, `image/gif` with one message per rejected file; appending the
  filtered batch only when the whole of it fits within `maxImages`, otherwise
  one capacity message and no change; removal by index; clearing; and the
  "upload disabled" gate `images.length >= maxImages`. The component does not
  own the list: it reports a new list through `onImagesChange` and problems
  through `onImageError`. The pure functions compute, for one event, the list
  the parent then holds and the messages reported, in order; the class
  `Uploader` is the component seen through its props (the list and a log of
  reported messages), and its methods are proved against those functions.
- **Field validation and touched flags** (`ProductForm.tsx`, module
  `ProductForm`): the validation effect as the function `Validate`; the
  `touched` record as the class `TouchedFields` with `MarkTouched` (blur and
  change), `ResetIfCleared` (the effect that clears every flag once the form
  is empty) and `ShownError` (`touched[f] && errors[f]`).
- **The page state machine** (`page.tsx`, module `Page`): the class `Home`
  holds `formData`, `images`, `isSubmitting`, `isSuccess` and the toast, plus
  the `TouchedFields` of its form child. Every handler is a method; the
  2000 ms success timer and the toast's closing are explicit events
  (`SuccessTimerFired`, `CloseToast`); the uploader's events are composed
  through the `ImageUploader` functions with `MaxImages = 3`. `Home` does
  not use the `Uploader` class: `handleFileChange` is therefore modelled
  twice over the same `FileChange`, once with the error log of the
  component seen alone and once with the page's toast as the receiver of
  `onImageError`.

`Text` holds JavaScript's `String.prototype.trim` over the ECMAScript
WhiteSpace and LineTerminator characters, and `length` counted in UTF-16 code
units, which is what the title rule measures.

The model also shows that `isSubmitting == isSuccess` holds in every
reachable state of the page (`Home.Valid`): the two flags are only ever set
and cleared together, so the overlay's "Uploading..." text is never shown.

The model follows the code where it is easy to misread: the submit handler
checks only that there is at least one image, neither the title length nor
the category, while the browser still demands both be non-empty through the
inputs' `required` attributes (`Page.ShortTitleSubmit` proves that a
two-character title with a category is submitted);
the timer armed by `handleToast` is 3000 ms, while the toast's own dismiss
timer defaults to 2000 ms; this version of the uploader has no drop handler;
and the form renders no tag chips.

## Model

| member | source | states |
|---|---|---|
| `ImageUploader.IsAllowedType` | src/components/ImageUploader.tsx:25-27 | a type passes exactly when it is one of the three the file input's `accept` list names (line 239), and each is an `image/` type |
| `ImageUploader.InvalidTypeMessage` | src/components/ImageUploader.tsx:29 | the message carries the file name at a fixed position, so the name can be read back from it |
| `ImageUploader.CapacityMessage` | src/components/ImageUploader.tsx:52 | the message carries `maxImages` in decimal, and the number read back from it is `maxImages` |
| `ImageUploader.AllowedFiles` | src/components/ImageUploader.tsx:26-34 | the files that pass the filter form a subsequence of the batch, each of an allowed type, and each allowed file occurs in it as often as in the batch |
| `ImageUploader.Rejected` | src/components/ImageUploader.tsx:26-31 | the files the filter drops form a subsequence of the batch, none of an allowed type, and each disallowed file occurs in it as often as in the batch |
| `ImageUploader.AllowedAndRejectedPartition` | src/components/ImageUploader.tsx:26-34 | every file of the batch is either kept or dropped: the two counts add up to the batch size |
| `ImageUploader.ValidateFiles` | src/components/ImageUploader.tsx:24-35 | the kept files are exactly the allowed files of the batch, in order and with their multiplicities; kept plus reported equals the batch size; there is one message per rejected file, and the k-th message names the k-th rejected file in batch order |
| `ImageUploader.FileChange` | src/components/ImageUploader.tsx:37-70 | the list after a pick is either unchanged or the old list followed by the whole filtered batch (never truncated), and it stays within `maxImages` |
| `ImageUploader.NothingValidChangesNothing` | src/components/ImageUploader.tsx:45-48 | with no allowed file the list is unchanged and only the type messages are reported, no capacity message |
| `ImageUploader.OverflowRejectsWholeBatch` | src/components/ImageUploader.tsx:50-58 | when the filtered batch does not fit, the list is unchanged and one capacity message follows the type messages |
| `ImageUploader.FittingBatchIsAppended` | src/components/ImageUploader.tsx:60-61 | when it fits, the new list is the old one followed by the kept files |
| `ImageUploader.CapacityMessageOnlyOnOverflow` | src/components/ImageUploader.tsx:50-52 | the capacity message occurs exactly once when a non-empty filtered batch overflows, and not at all otherwise |
| `ImageUploader.MessagesDistinct` | src/components/ImageUploader.tsx:28-52 | a type message never equals the capacity message |
| `ImageUploader.DecimalString` | src/components/ImageUploader.tsx:52 | `${maxImages}` is a non-empty string of digits without a leading zero whose value is the number |
| `ImageUploader.RemoveIndex` | src/components/ImageUploader.tsx:72-80 | filtering out index `i` is the list without position `i`, order kept; an index outside the list keeps every element |
| `ImageUploader.AddThenRemoveRestores` | src/components/ImageUploader.tsx:61-77 | adding one allowed file to a list with room and removing it by its index restores the list |
| `ImageUploader.UploadDisabled` | src/components/ImageUploader.tsx:108-128 | the one gate of the upload zone, its click and key handlers and the input: closed, `images.length >= maxImages`, exactly when the open test `images.length < maxImages` fails |
| `ImageUploader.DisabledRejectsEveryBatch` | src/components/ImageUploader.tsx:118-130 | while the gate is closed every batch with an allowed file is rejected with the capacity message |
| `ImageUploader.EnabledAcceptsOneFile` | src/components/ImageUploader.tsx:118-130 | while the gate is open one allowed file is appended with no message |
| `ImageUploader.Step` | src/components/ImageUploader.tsx:37-87 | one pick, remove or clear event; none takes a list within `maxImages` past it, and remove and clear report nothing and never grow the list |
| `ImageUploader.Run` | src/components/ImageUploader.tsx:37-87 | events applied in order; a final clear leaves the list empty, and without a pick the list never grows |
| `ImageUploader.RunStaysWithinCapacity` | src/components/ImageUploader.tsx:37-87 | no sequence of pick, remove and clear events takes the list past `maxImages` |
| `ImageUploader.ClearAllIdempotent` | src/components/ImageUploader.tsx:83-87 | clearing yields the empty list with no message, and clearing again changes nothing |
| `ImageUploader.Uploader.Disabled` | src/components/ImageUploader.tsx:241 | the file input uses the one gate `UploadDisabled`; in every reachable state it is closed exactly when the list holds `maxImages` files |
| `ImageUploader.Uploader.HandleFileChange` | src/components/ImageUploader.tsx:37-70 | the list becomes the one `FileChange` gives, the reported messages are appended to the log, and the capacity bound is kept |
| `ImageUploader.Uploader.HandleRemoveImage` | src/components/ImageUploader.tsx:72-80 | the list loses position `index`, the log is unchanged, the bound is kept |
| `ImageUploader.Uploader.HandleClearAllImages` | src/components/ImageUploader.tsx:83-87 | the list becomes empty and the log is unchanged |
| `ImageUploader.Uploader.constructor` | src/components/ImageUploader.tsx:13-21 | a fresh uploader has an empty list, an empty log and the given capacity |
| `Text.IsWhitespace` | src/components/ProductForm.tsx:60 | the characters `trim` strips; every one of them is a single UTF-16 code unit |
| `Text.TrimStart` | src/components/ProductForm.tsx:60 | the result is a suffix of the input, everything dropped is whitespace, and it does not start with whitespace |
| `Text.TrimEnd` | src/components/ProductForm.tsx:60 | the result is a prefix of the input, everything dropped is whitespace, and it does not end with whitespace |
| `Text.Trim` | src/components/ProductForm.tsx:60-62 | the trimmed title neither starts nor ends with whitespace, and it is empty exactly when the title is all whitespace |
| `Text.TrimIsSlice` | src/components/ProductForm.tsx:60-62 | the trimmed string is a slice of the input with only whitespace cut on either side |
| `Text.TrimIdempotent` | src/components/ProductForm.tsx:60-62 | trimming twice is trimming once |
| `Text.TrimStartSkipsWhitespace` | src/components/ProductForm.tsx:60-62 | leading whitespace does not affect the left trim |
| `Text.TrimEndSkipsWhitespace` | src/components/ProductForm.tsx:60-62 | trailing whitespace does not affect the right trim |
| `Text.TrimPadded` | src/components/ProductForm.tsx:60-62 | trimming a whitespace-padded string gives back the text between the padding |
| `Text.Utf16Length` | src/components/ProductForm.tsx:62 | the UTF-16 length lies between the number of characters and twice it, is zero only for the empty string, and equals the number of characters for a string within the Basic Multilingual Plane |
| `ProductForm.Validate` | src/components/ProductForm.tsx:57-71 | "required" iff the title is all whitespace; "at least 3" iff the trimmed title is non-empty and shorter than 3 code units; no title error iff it is at least 3; the title messages are exclusive; the category error iff the category is empty; never a tags error |
| `ProductForm.PaddedTitleAccepted` | src/components/ProductForm.tsx:60-64 | a title of three or more characters surrounded by any whitespace has no error |
| `ProductForm.ListedCategoryAccepted` | src/components/ProductForm.tsx:66-68 | every option of the category select passes the category rule |
| `ProductForm.TouchedFields.constructor` | src/components/ProductForm.tsx:39-43 | all three flags start false |
| `ProductForm.TouchedFields.MarkTouched` | src/components/ProductForm.tsx:74-85 | the field's flag becomes true and the other two are unchanged |
| `ProductForm.TouchedFields.ResetIfCleared` | src/components/ProductForm.tsx:46-54 | when title, category and tags are all empty every flag becomes false; otherwise no flag changes |
| `ProductForm.TouchedFields.IsTouched` | src/components/ProductForm.tsx:89 | `touched[field]`: the flag of that field and of no other |
| `ProductForm.TouchedFields.ShownError` | src/components/ProductForm.tsx:88-90 | an error is shown for a field iff the field is touched and has an error, and it is that error |
| `ProductForm.TagsNeverShown` | src/components/ProductForm.tsx:88-90 | the tags field never shows an error |
| `Page.SetField` | src/app/page.tsx:38-47 | the named field takes the value and the other two are unchanged |
| `Page.ToastAfterErrors` | src/app/page.tsx:53-62 | after one `handleImageError` per message the toast shows the last message as an open error, or is unchanged when there is none |
| `Page.Home.Valid` | src/app/page.tsx:75-90 | the page invariant: `isSubmitting` and `isSuccess` are equal, and the list holds at most `MaxImages`, so the upload gate is closed exactly at three images |
| `Page.Home.OverlayText` | src/app/page.tsx:120-124 | the overlay is drawn exactly while `isSubmitting`, and in every reachable state it never reads "Uploading..." |
| `Page.Home.constructor` | src/app/page.tsx:22-34 | empty fields, no images, both flags false, the toast closed, no field touched |
| `Page.Home.HandleFormChange` | src/app/page.tsx:38-43 | only the named field changes; nothing else in the page state does |
| `Page.Home.HandleTagsChange` | src/app/page.tsx:45-47 | only `tags` changes |
| `Page.Home.HandleImagesChange` | src/app/page.tsx:49-51 | the image list is replaced wholesale and nothing else changes; the invariant is kept for a list within `MaxImages`, which is what the uploader hands over |
| `Page.Home.HandleToast` | src/app/page.tsx:53-58 | the toast opens with the given message and kind, nothing else changes |
| `Page.Home.HandleImageError` | src/app/page.tsx:60-62 | an open error toast with the message |
| `Page.Home.CloseToast` | src/app/page.tsx:106-108 | the toast returns to `{"", false, false}` |
| `Page.Home.HandleSubmit` | src/app/page.tsx:64-84 | with no images only the error toast "At least one image is required" opens; otherwise both flags are set and the success toast "Product added successfully!" opens, with the title and category unchecked; the invariant is kept |
| `Page.Home.SuccessTimerFired` | src/app/page.tsx:86-98 | after a success the fields are emptied, the images cleared, both flags cleared and every touched flag reset; without a pending success nothing changes |
| `Page.Home.EditField` | src/components/ProductForm.tsx:79-85 | an edit stores the value in that field only, marks the field touched and keeps the other flags, except that emptying the whole form clears every flag; the tags field takes the same path through `handleTagsChange` and its own touched update (ProductForm.tsx lines 180-183, page.tsx lines 45-47) |
| `Page.Home.BlurField` | src/components/ProductForm.tsx:74-76 | a blur marks the field touched and keeps the other flags |
| `Page.Home.ChooseFiles` | src/app/page.tsx:147-152 | a pick in the uploader replaces the list as `FileChange` gives with `maxImages = 3` and leaves the last reported message in the toast; the list stays within 3 |
| `Page.Home.ReportImageErrors` | src/app/page.tsx:60-62 | reporting messages one by one leaves the toast as `ToastAfterErrors` gives, nothing else changes |
| `Page.Home.RemoveImage` | src/components/ImageUploader.tsx:72-80 | the page's list loses position `index`, nothing else changes |
| `Page.Home.ClearAllImages` | src/components/ImageUploader.tsx:83-87 | the page's list becomes empty, nothing else changes |
| `Page.Home.UploadDisabled` | src/app/page.tsx:150 | the same gate `UploadDisabled` with `MAX_IMAGES = 3`; in every reachable state it is closed exactly when three images are held |
| `Page.Home.SubmitDisabled` | src/app/page.tsx:159 | the submit button is disabled while a submission is in flight; in every reachable state that is exactly while a success is pending |
| `Page.Home.ShownError` | src/components/ProductForm.tsx:88-122 | the page's form shows an error under a field iff that field is touched and the current form data has an error for it, and then it is that error |
| `Page.TwoCharacterTitleTooShort` | src/components/ProductForm.tsx:62-63 | any form whose title is "Hi" gets the "at least 3 characters" error |
| `Page.ShortTitleSubmit` | src/app/page.tsx:64-84 | one image, the category "Hoodie" and the title "Hi", so both `required` inputs are filled: the success toast opens and `isSubmitting` is set while the touched title field shows the title-length error |
| `Page.SubmitThenReset` | src/app/page.tsx:64-98 | submit without an image raises the error toast; with one it succeeds, and the success timer returns the page to its empty state with no field touched |

## Left out

- Rendering: JSX, class strings, SVGs, ARIA attributes, `next/image`, the preview grid and the counters are presentation only.
- Preview URLs: `URL.createObjectURL` / `revokeObjectURL` and the `previews` state are browser calls; the model does not track preview entries, and the one-preview-per-image correspondence is not stated.
- Timers: the 2000 ms success timer, `handleToast`'s 3000 ms timer and the toast's own dismiss timer are explicit events (`SuccessTimerFired`, `CloseToast`); real time, the cancelling of a timer on re-render, and which pending timer fires first are not modelled.
- `isLoading` and the `fileInputRef.current.value = ""` resets are UI plumbing and are not modelled.
- ImageUploader.Uploader.Disabled: leaves out the `isLoading` term of the input's `disabled` attribute, because `isLoading` is false again once the handler returns early (ImageUploader.tsx lines 46, 53) or, after an accepted batch, once the preview effects (lines 89-104) have run; the model has no state between those points.
- The `console.log` calls of submit are output.
- `Toast.tsx`, `layout.tsx` and `index.d.ts` are not part of this model beyond the toast's three fields; category is a free string, as `page.tsx` stores it.
- `Text.IsWhitespace`: the whitespace set is ECMAScript's as of Unicode 15 (category Zs plus the listed controls and line terminators); strings are sequences of Unicode scalar values, so lone UTF-16 surrogates cannot be written.
- The field name of `handleFormChange` and `handleBlur` is the datatype `Field`; an input with another `name` would add a key to the record in JavaScript, and the page has none.
- The `files` list of a change event is `Option`: `None` is a missing `FileList`, which the handler ignores.
- Page.Home.HandleSubmit: the `required` attributes of the title input and the category select (ProductForm.tsx lines 108, 138) keep the browser from firing `submit`, and so from reaching `handleSubmit`, while the title or the category is empty (the form at page.tsx lines 116-119 has no `noValidate`); `HandleSubmit` models the handler alone and can be called in any state.
- Whether the browser blocks a second submit while the button is disabled is not modelled; `HandleSubmit` itself, like `handleSubmit`, has no guard against it.
