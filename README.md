# Modal registry, SSN segment editor and upload check

A Dafny model of the three pieces of this React component library that hold logic and not only markup:

- **Modal registry** (`Modal`, `modal.dfy`). `ModalProvider` holds one state cell, `modalStates`, a map from modal id to `{isOpen, props}`. `showModal(id, props)` replaces it with a copy in which `id` is open with exactly the given props (possibly none). `hideModal(id)` replaces it with a copy in which `id` is closed with empty props. Consumers such as the logout dialog read `modalStates[id]?.isOpen`, so an id never written reads as closed. `useModal` throws outside a provider. The map updates are the pure functions `Show` and `Hide`. The provider is a class whose methods reassign its map field.
- **SSN segment editor** (`SsnInput`, `ssn_input.dfy`). A value is shown as the slices `[0,3)`, `[3,5)` and `[5,9)`. `handleChange` strips everything but ASCII digits from an edit. It drops the edit when the result is longer than the box (3, 2 or 4). Otherwise it splices the digits into the value at fixed offsets. It also says whether focus should move to the next box. All of this is pure functions.
- **Upload check** (`UploadInput`, `upload_input.dfy`). `handleFileChange` looks at the first chosen file only. It checks the MIME type first and then the size (at most 3 MiB). Each failure sets its own message and returns. An accepted file clears the message, is recorded and switches crop mode on. `handleUseFullImage` hands the recorded file to `onFullImage`, when both exist, and switches crop mode off. `Upload` is a class with the fields `fileError`, `currentFile` and `cropActive`.

`wrappers.dfy` holds `Option` (for `undefined`/`null`) and `Result` (for a thrown error).

`showModal` stores `props` exactly as passed (src/components/Modal/ModalProvider.tsx:39). A call without props stores `undefined` (`ModalState(true, None)` here), not `{}`. Only `hideModal` writes the empty object.

## Model

| member | source | states |
|---|---|---|
| Modal.Show | src/components/Modal/ModalProvider.tsx:36-41 | the updated map holds `{isOpen: true, props}` for the id with `props` exactly as given (possibly absent); its keys are the old keys plus the id; every other entry is copied unchanged |
| Modal.Hide | src/components/Modal/ModalProvider.tsx:43-48 | the updated map holds a closed entry with empty props for the id, whatever it held before; its keys are the old keys plus the id; every other entry is copied unchanged |
| Modal.Closed | src/components/Modal/ModalProvider.tsx:46 | the entry `hideModal` writes is closed and carries the empty props object |
| Modal.IsOpen | src/components/Modal/LogoutModal.tsx:14 | an id absent from the map reads as closed; a present id reads as its entry's `isOpen` flag |
| Modal.UseModal | src/components/Modal/ModalProvider.tsx:21-27 | succeeds exactly when there is a provider and then returns that provider; otherwise fails with "useModal must be used within a ModalProvider" |
| Modal.ModalProvider.constructor | src/components/Modal/ModalProvider.tsx:34 | the registry starts as the empty map, so every id reads as closed |
| Modal.ModalProvider.ShowModal | src/components/Modal/ModalProvider.tsx:36-41 | the new state is `Show` of the old one; the id reads as open with the given props; every other id reads as before |
| Modal.ModalProvider.HideModal | src/components/Modal/ModalProvider.tsx:43-48 | the new state is `Hide` of the old one; the id reads as closed; every other id reads as before |
| Modal.InitialAllClosed | src/components/Modal/ModalProvider.tsx:34 | in the empty registry every id reads as closed |
| Modal.Isolation | src/components/Modal/ModalProvider.tsx:38 | showing or hiding one id leaves another id's presence, entry and open flag as they were |
| Modal.HideIdempotent | src/components/Modal/ModalProvider.tsx:43-48 | hiding twice gives the same map as hiding once |
| Modal.ShowThenHide | src/components/Modal/ModalProvider.tsx:36-48 | show then hide equals a plain hide: closed with empty props |
| Modal.HideThenShow | src/components/Modal/ModalProvider.tsx:36-48 | hide then show(p) equals a plain show(p): open with p |
| Modal.DistinctUpdatesCommute | src/components/Modal/ModalProvider.tsx:37-47 | shows and hides of two different ids commute |
| Modal.HiddenVersusUntouched | src/components/Modal/ModalProvider.tsx:45-46 | after a hide the id is in the map's domain and an untouched id is not, yet both read as closed |
| Modal.NoProviderFails | src/components/Modal/ModalProvider.tsx:21-26 | without a provider `useModal` fails and never yields any context |
| Modal.LogoutFlow | src/components/Modal/LogoutModal.tsx:12-62 | after `showModal("logout")` without props, as the button at src/App.tsx:13 calls it, the consumer (line 14) reads open with absent props; after `hideModal("logout")`, as "No thanks" at line 62 calls it, it reads closed with empty props |
| SsnInput.Slice | src/components/Inputs/TextInput/SsnInput.tsx:44-46 | JavaScript `slice` with non-negative bounds: the length is the clamped range's length and each character is the one at the matching offset |
| SsnInput.SliceFrom | src/components/Inputs/TextInput/SsnInput.tsx:75 | `slice(start)` is the suffix from `start`, or empty past the end |
| SsnInput.MaxLength | src/components/Inputs/TextInput/SsnInput.tsx:56-69 | each box's edit limit (3, 2, 4) is exactly the width of the slice that box displays |
| SsnInput.Segment | src/components/Inputs/TextInput/SsnInput.tsx:44-46 | each box shows at most its width of characters, and exactly its width once the value has nine or more |
| SsnInput.Clean | src/components/Inputs/TextInput/SsnInput.tsx:52 | the cleaned string holds only ASCII digits and is no longer than the input |
| SsnInput.HandleChange | src/components/Inputs/TextInput/SsnInput.tsx:56-71 | the edit is rejected (nothing emitted, value unchanged) exactly when the cleaned input is longer than the box's width |
| SsnInput.CleanConcat | src/components/Inputs/TextInput/SsnInput.tsx:52 | cleaning distributes over concatenation, so the digits keep their order |
| SsnInput.CleanCount | src/components/Inputs/TextInput/SsnInput.tsx:52 | every digit occurs in the cleaned string as often as in the input; no other character occurs |
| SsnInput.CleanDigits | src/components/Inputs/TextInput/SsnInput.tsx:52 | a string of digits is left unchanged by cleaning |
| SsnInput.SegmentsCover | src/components/Inputs/TextInput/SsnInput.tsx:44-46 | for a value of at most nine characters the three boxes concatenated give the value |
| SsnInput.SpliceLayout | src/components/Inputs/TextInput/SsnInput.tsx:73-80 | an emitted value is the cleaned digits followed by the value from offset 3 (first box), the first box's text, the digits and the value from offset 5 (second box), or the first five characters followed by the digits (last box) |
| SsnInput.EmittedLength | src/components/Inputs/TextInput/SsnInput.tsx:71-80 | a value of at most nine characters only ever gives emitted values of at most nine characters |
| SsnInput.LastEditTruncates | src/components/Inputs/TextInput/SsnInput.tsx:79 | an edit of the last box emits at most nine characters whatever the value held beyond |
| SsnInput.EmittedDigits | src/components/Inputs/TextInput/SsnInput.tsx:52-80 | an edit of an all-digit value emits an all-digit value |
| SsnInput.ReenterSegment | src/components/Inputs/TextInput/SsnInput.tsx:44-86 | re-entering a box's current digits emits the value unchanged (for the last box when the value has at most nine characters), moving focus exactly when the box was full and is not the last |
| SsnInput.FocusAdvance | src/components/Inputs/TextInput/SsnInput.tsx:84 | focus moves on exactly when the cleaned entry fills the box and the box is not the last |
| SsnInput.FocusIgnoresDisplay | src/components/Inputs/TextInput/SsnInput.tsx:77-86 | focus follows the typed digits, not the display: "23" typed into the second box of an empty value moves focus on although the second box of the result shows nothing |
| SsnInput.FullValueEdit | src/components/Inputs/TextInput/SsnInput.tsx:44-80 | filling one box of a nine-character value emits nine characters in which that box shows the new digits and the other two are unchanged |
| SsnInput.ShortValueShifts | src/components/Inputs/TextInput/SsnInput.tsx:77 | the boxes are not padded: "23" typed into the second box of "1" emits "123", whose second box is empty |
| UploadInput.Rejection | src/components/Inputs/UploadInput/index.tsx:67-79 | a file is accepted exactly when its type is one of the three and its size at most 3145728; a file gets the type message exactly when its type is not one of the three, and the size message exactly when its type is valid and its size exceeds 3145728 |
| UploadInput.Upload.constructor | src/components/Inputs/UploadInput/index.tsx:60-61 | the component mounts with no error and no file |
| UploadInput.Upload.HandleFileChange | src/components/Inputs/UploadInput/index.tsx:63-91 | a missing or empty file list changes nothing; a rejected first file sets its message and leaves the file and crop flag as they were; an accepted one clears the error, is recorded and turns crop mode on; a recorded file always passed both checks |
| UploadInput.Upload.HandleUseFullImage | src/components/Inputs/UploadInput/index.tsx:93-98 | when a file is recorded and a handler is given, the file is forwarded and crop mode turns off; otherwise nothing is forwarded and nothing changes |
| UploadInput.TypeCheckFirst | src/components/Inputs/UploadInput/index.tsx:71-79 | a file of a wrong type gets the type message whatever its size |
| UploadInput.SizeBoundary | src/components/Inputs/UploadInput/index.tsx:68-79 | the limit is 3145728 bytes inclusive: that size is accepted and one more byte is rejected with the size message |
| UploadInput.AcceptedTypes | src/components/Inputs/UploadInput/index.tsx:67-74 | within the size limit, exactly "image/jpeg", "image/png" and "image/jpg" pass |
| UploadInput.RejectAfterAccept | src/components/Inputs/UploadInput/index.tsx:63-98 | after an accepted file, a rejected one shows its message but keeps the earlier file recorded, and "Use Full Image" then forwards the earlier file |

## Left out

- Rendering, `cva` style variants and every component that only wires focus state and styling (buttons, text, password, select, text-area, search, checkbox and coupon inputs, the app shell and the build config): there is no logic in them.
- The headlessui dialog of the logout modal and its side effects (removing the stored tokens, navigating to the login page): browser I/O. `LogoutFlow` models only its reads and writes of the registry.
- The commented-out `hideModalWithAction`: it is not live code.
- React's re-rendering and its batching of state updates: each `setModalStates` updater is applied at the call, in call order, as on the single event loop.
- Modal props: values are an opaque type parameter; the registry never looks inside them.
- SsnInput: positions are counted in Unicode characters, whereas JavaScript counts UTF-16 code units; the two differ only for a value holding characters outside the Basic Multilingual Plane.
- SsnInput.FocusAdvance: says whether focus should move, not whether the next box is mounted (`nextRef.current`); DOM focus and refs are left out.
- The `showSSN` visibility toggle: it only switches the input type.
- Upload: a file is reduced to its MIME type and size; reading it with `FileReader` and the asynchronous `setImage` callback are browser I/O and left out, so the preview image is not modelled.
- Upload: the crop state, `getCroppedImg` and `handleComplete` are left out: floating-point canvas scaling, Blob and Promise APIs.
- Upload: `cropActive` is owned by the parent and set through the `setCropActive` prop; it is modelled as a field of the component. `onFullImage` is reduced to whether it is given plus the file it receives.
