# Voice-driven face registration: a Dafny model

This project models the data-collection core of a face-registration web app.

- **Voice collector.** A camera page detects and recognises faces. For a new face it builds a registration form from a data template. The form can be filled in by voice: for each template field the collector speaks a prompt and listens once. It cancels on an abort word, checks the answer against the field type, and retries up to three times. The answers become a record from field name to value.
- **Page controller.** These are the handlers for start camera, capture, recognition, showing the form, voice collection, submit and cancel. The DOM is abstracted to the elements they drive.
- **User table.** Records are appended by registration and searched by nearest embedding under a strict threshold.
- **Gender rule.** The face module picks a gender from two confidences in an analysis.

Modules:

- `Promises` (`promises.dfy`): `Option` and `Settled`. `Settled` is the outcome of a promise: `Resolved(value)` or `Rejected`.
- `Text` (`text.dfy`): the string rules the collector uses. These are ASCII lower-casing, `trim`, `includes`, and the regular expression `/\d+/` (its `test`, and the first match of `match`).
- `Voice` (`voice.dfy`):
  - Class `VoiceInput` has `isListening`, the `script` of outcomes the recogniser will still deliver, and the `spoken` log of utterances.
  - Its methods follow `speak`, `listen`, `collectFieldData` and `collectAllData`.
  - They are proved against the functions `RunAttempts`/`RunField` (one field) and `CollectFields`/`CollectAll` (a session). Lemmas state what the source promises about those functions.
- `App` (`app.dfy`):
  - Class `Page` holds the controller's module-level variables (`currentFaces`, `currentImageData`, `dataTemplate`). It also holds the state of the elements the handlers touch: the status indicator, the counters, the button flags, the result panels, the form's inputs and visibility, the stored face and the face overlay.
  - It also keeps a log of the requests sent to the server.
  - Every server reply is a `Settled` parameter; the camera's start result and frame are parameters too.
- `Storage` (`storage.dfy`): class `StorageManager` over the `users` list. The Euclidean norm is a given function; the id, the timestamp and the configured model are parameters.
- `FaceRecognition` (`gender.dfy`): `GetGenderFromAnalysis` over an analysis whose `gender` entry is either a mapping of real confidences or something else.

Where the code and its documentation disagree, the model follows the code:

- The docstring of `get_gender_from_analysis` promises only `Male`/`Female`. The code also returns `Unknown` for an empty analysis or a `gender` entry that is not a mapping.
- An analysis without a `gender` entry gives `Female`, not `Unknown`, because the default is an empty mapping (`MissingGenderIsFemale`).
- The collector speaks `Data collection cancelled` (no period). The page's reply to a cancelled session is `Data collection cancelled.` (with a period). Both are kept as written.

## Model

| member | source | states |
|---|---|---|
| Voice.IsAbortCommandSpec | webapp/static/js/voice_input.js:130-135 | A transcript is an abort command iff it is non-empty and its lower-cased text has one of `stop`, `quit`, `exit`, `cancel`, `abort` anywhere as a substring. Trimming first changes nothing. |
| Voice.SomeIncludedSpec | webapp/static/js/voice_input.js:134 | `keywords.some(k => text.includes(k))` holds iff some keyword is included. |
| Voice.AbortSignalAborts | webapp/static/js/voice_input.js:130-135 | The word `ABORT` itself is an abort command. |
| Voice.ValidateResponseSpec | webapp/static/js/voice_input.js:137-150 | A response is valid iff it has a non-whitespace character and, for an `integer` field, a digit. `string` and every other type accept any non-blank text. |
| Voice.TrimBlank | webapp/static/js/voice_input.js:138 | `trim()` gives the empty string iff the text is whitespace only. |
| Voice.JudgeSpec | webapp/static/js/voice_input.js:104-117 | An attempt ends with `'ABORT'` iff it heard an abort word, even when the transcript would also validate. It collects iff it heard a valid transcript without an abort word, and then it returns that transcript unchanged. A recogniser error never ends the field. |
| Voice.RunAttemptsDecided | webapp/static/js/voice_input.js:93-124 | If the first outcome that ends an attempt comes within the attempts left, it decides the result after exactly that many listens. |
| Voice.RunAttemptsExhausted | webapp/static/js/voice_input.js:93-127 | If no outcome ends an attempt, every attempt is used and the result is `null`. |
| Voice.RunAttemptsBounds | webapp/static/js/voice_input.js:93-127 | A run listens at most once per remaining attempt, and uses all of them when it returns `null`. A non-null result is the verdict on the last outcome heard. Every earlier outcome failed. |
| Voice.FailedRunSpeech | webapp/static/js/voice_input.js:96-122 | A run that returns `null` speaks the prompt once per attempt, with a correction between two prompts and none after the last one. The correction after attempt `i` is "I didn't catch that" when listen `i` was rejected, and "Invalid <type>" when it heard a transcript. So a correction is spoken only when an attempt remains. |
| Voice.RunAttemptsBoundsSpeech | webapp/static/js/voice_input.js:105-107 | An aborted run ends with the cancellation notice. |
| Voice.RunFieldSpec | webapp/static/js/voice_input.js:88-128 | One field with `maxRetries` attempts:<br>- at most `maxRetries` listens, and exactly that many when nothing is collected;<br>- a collected value is the last transcript heard: no abort word, non-blank, with a digit for an `integer` field;<br>- `'ABORT'` means the last transcript mentions an abort word;<br>- every earlier outcome was a rejection or an invalid transcript. |
| Voice.CollectedIsNotASentinel | webapp/static/js/voice_input.js:105-112 | A transcript that validates and is no abort command is neither `"ABORT"` nor empty. |
| Voice.RunFieldSignals | webapp/static/js/voice_input.js:161-169 | A field's result equals `'ABORT'` only when the field aborted, and a collected transcript is never falsy. So `collectAllData` never mistakes an answer for a signal. |
| Voice.StoredValueSpec | webapp/static/js/voice_input.js:169-177 | A collected `integer` answer with a digit is stored as its leftmost maximal run of digits. Any other type stores the transcript unchanged. |
| Voice.AskWellBehaved | webapp/static/js/voice_input.js:88-128 | With its default of three attempts, a field run:<br>- listens at most three times;<br>- never yields a transcript taken for the abort signal, and never an empty one;<br>- announces its own abort. |
| Voice.RunsShape | webapp/static/js/voice_input.js:157-167 | Fields are asked in list order. Only the last field asked can have aborted, and a field is left unasked only after an abort. |
| Voice.RunsScriptAt | webapp/static/js/voice_input.js:157-161 | The field at position `i` is asked from what the earlier fields left of the script. |
| Voice.RunsScripts | webapp/static/js/voice_input.js:157-161 | The same, for every field asked. |
| Voice.CollectFieldsAborted | webapp/static/js/voice_input.js:164-167 | The session gives `null` iff some field asked returned `'ABORT'`. |
| Voice.CollectFieldsKeys | webapp/static/js/voice_input.js:157-182 | A completed session asked every field. Its keys are the starting keys plus exactly the field names. |
| Voice.CollectFieldsKeeps | webapp/static/js/voice_input.js:155-182 | A key that names no field keeps its value. |
| Voice.CollectFieldsValueAt | webapp/static/js/voice_input.js:169-181 | In a completed record, a field whose name no later field repeats holds the value its own run stored. |
| Voice.CollectFieldsValues | webapp/static/js/voice_input.js:169-181 | The same for every field: the last field of a name wins, and other keys are kept. |
| Voice.CollectFieldsListens | webapp/static/js/voice_input.js:161 | A session listens at most three times per field. |
| Voice.CollectFieldsAbortSpeech | webapp/static/js/voice_input.js:104-108 | After an abort the cancellation notice has been spoken twice, by the field and by the session. |
| Voice.CollectAllBounds | webapp/static/js/voice_input.js:152-186 | A session opens with the introduction and makes at most three listens per field. |
| Voice.CollectFieldsListensRuns | webapp/static/js/voice_input.js:157-167 | The field loop takes exactly the listens of the fields asked, so no field after an abort is listened to. |
| Voice.CollectFieldsSpeechRuns | webapp/static/js/voice_input.js:157-167 | The field loop says exactly what the fields asked say, in order, then the cancellation notice after an abort. No field after an abort is prompted. |
| Voice.CollectAllAborted | webapp/static/js/voice_input.js:152-167 | `collectAllData` gives `null` iff some field asked aborted, and then it ends with two cancellation notices. |
| Voice.CollectAllRuns | webapp/static/js/voice_input.js:152-186 | A session takes exactly the listens of the fields asked. It says the introduction, what those fields say, and then the cancellation or completion notice. With `RunsShape` (the runs stop at the first abort), a later field is neither prompted nor listened to. |
| Voice.CollectAllCompleted | webapp/static/js/voice_input.js:157-186 | A session that is not aborted asked every field. Its keys are exactly the field names, and each maps to what its field's run stored: first digit run, raw transcript, or `Not provided`. It closes with the completion notice. |
| Voice.VoiceInput.constructor | webapp/static/js/voice_input.js:7-12 | A collector that is not listening, with the given script and nothing spoken. |
| Voice.VoiceInput.Speak | webapp/static/js/voice_input.js:30-51 | Speaking always completes and adds exactly the text to the log. |
| Voice.VoiceInput.Listen | webapp/static/js/voice_input.js:53-86 | One listen consumes exactly one scripted outcome and adds one to the listen count. An exhausted script rejects. Afterwards the collector is not listening. |
| Voice.VoiceInput.Attempt | webapp/static/js/voice_input.js:94-123 | One attempt speaks the prompt, listens once, and returns the verdict `Judge` gives on what it heard. It speaks the cancellation notice or a correction as the source does. |
| Voice.VoiceInput.CollectFieldData | webapp/static/js/voice_input.js:88-128 | The attempt loop returns exactly `RunField`'s result, calls `listen` exactly as often as `RunField` listens and consumes those outcomes, and speaks exactly its utterances. |
| Voice.VoiceInput.CollectField | webapp/static/js/voice_input.js:161 | `collectFieldData(field)` with the default of three attempts: it calls `listen` at most three times. |
| Voice.VoiceInput.AskFields | webapp/static/js/voice_input.js:155-182 | The field loop returns `CollectFields`'s record (`null` on abort), calls `listen` as often as it listens, and consumes and speaks exactly what it does. |
| Voice.VoiceInput.CollectAllData | webapp/static/js/voice_input.js:152-186 | The whole session matches `CollectAll` in its record, its `listen` calls, the outcomes consumed and what it says: the introduction, the fields, and the completion notice unless it was aborted. |
| Text.TrimSlice | webapp/static/js/voice_input.js:132 | `trim` returns a slice of its input, with only whitespace cut off on either side. |
| Text.TrimEmptyIffWhitespace | webapp/static/js/voice_input.js:138 | Trimming leaves nothing iff the text is whitespace only. |
| Text.IncludesIsOccurs | webapp/static/js/voice_input.js:134 | `includes` finds a word iff it occurs at some position. |
| Text.IncludesIgnoresTrim | webapp/static/js/voice_input.js:132-134 | Trimming never removes an occurrence of a word that holds no whitespace. |
| Text.LeadingDigits | webapp/static/js/voice_input.js:173 | The result is the longest all-digit prefix of its input. |
| Text.FirstDigitIndex | webapp/static/js/voice_input.js:173 | The result is the position of the first digit, with no digit before it (the length when there is none). |
| Text.MatchDigitsSpec | webapp/static/js/voice_input.js:173 | `match(/\d+/)` fails iff there is no digit, and otherwise gives the leftmost maximal digit run. |
| Text.FirstDigitRunUnique | webapp/static/js/voice_input.js:173 | A string has only one leftmost maximal digit run. |
| App.IndexOfAny | webapp/static/js/app.js:233 | The result is the first position holding one of the given characters, or the length. |
| App.DigitsAreNumber | webapp/static/js/app.js:233 | A digit run fits a `number` input. |
| App.NumberHasDigit | webapp/static/js/app.js:233 | Every value a `number` input keeps has a digit. |
| App.NoDigitNoNumber | webapp/static/js/app.js:233 | A value without a digit is dropped by a `number` input. |
| App.NotProvidedIsNoNumber | webapp/static/js/app.js:233 | `Not provided` is dropped by a `number` input. |
| App.FormEntriesKeys | webapp/static/js/app.js:260-265 | The form data has exactly the non-empty input names. |
| App.FormEntriesLast | webapp/static/js/app.js:260-265 | An input that no later input shares a name with gives the form data its value. |
| App.ClearedEntries | webapp/static/js/app.js:295 | After a reset the form data has the same names, every value empty. |
| App.FirstWithId | webapp/static/js/app.js:231 | `getElementById` finds the first input with that id, or none when no input has it. |
| App.FirstWithIdIgnoresValues | webapp/static/js/app.js:231-233 | The lookup depends on the ids alone, so writing values never changes what it finds. |
| App.StripLineBreaks | webapp/static/js/app.js:200 | A `text` input's value sanitization: no line feed or carriage return is left, every other character keeps its count, and the value is unchanged exactly when it has no line break. |
| App.MergedSpec | webapp/static/js/app.js:228-235 | The voice merge writes each key's value into the first input with that id, as that input's type keeps it: a `number` input keeps only a valid number (else the empty string), a `text` input drops line breaks. Every other input, and every attribute but the value, is unchanged. Keys with no input are ignored. |
| App.FillStep | webapp/static/js/app.js:230-235 | One iteration of the merge loop writes one key, and the order of the keys does not matter. |
| App.MergedFormAt | webapp/static/js/app.js:228-235 | On a generated form with distinct names, field `i`'s input ends up holding the merged value. |
| App.RoundTrip | webapp/static/js/app.js:228-265 | On a generated form with distinct non-empty names, merging a record for exactly those names and reading the form back gives the record. The only changes: a value that is not a number becomes empty in a `number` input, and a `text` input drops line feeds and carriage returns. |
| App.VoiceThenSubmit | webapp/static/js/app.js:226-265 | A completed voice session merged into a fresh form and read back by the submit handler gives one entry per field. An `integer` field holds its digit run, or the empty string when it was not answered. Any other field holds its stored answer, or `Not provided`, without line breaks. |
| App.DuplicateNameLosesAnswer | webapp/static/js/app.js:228-265 | For any template and record: when a later field repeats an earlier field's non-empty name, the voice answer goes to the first input with that id, while the form data takes the last input of that name, which is empty. The answer is lost. |
| App.Page.constructor | webapp/static/js/app.js:10-13 | The page as loaded: no faces, frame or template; capture disabled; nothing shown; nothing sent. |
| App.Page.Init | webapp/static/js/app.js:32-53 | A failed status request leaves the page offline. A status reply sets the counters and fetches the template. The template is stored only when it arrives, and the page is offline otherwise. |
| App.Page.StartCamera | webapp/static/js/app.js:62-69 | Only a camera that started disables start, enables capture and shows the camera status. |
| App.Page.ShowRegistrationForm | webapp/static/js/app.js:186-216 | The form loop generates one input per template field, in order: id and name are the field name, the type is `number` iff the field is `integer`, the label is the prompt or the name. No template means no inputs. The face is kept and the form shown. |
| App.Page.RecognizeFace | webapp/static/js/app.js:130-146 | It sends the frame and face. A known face shows the user and hides the form. A new face shows the new-face panel and opens the form. A failed request changes nothing else. |
| App.Page.Capture | webapp/static/js/app.js:72-108 | Recognition runs only on a successful detection with faces, and on the first face. A reply without faces clears the overlay; a failed detection keeps it. The capture button ends enabled in every case. |
| App.Page.FillForm | webapp/static/js/app.js:228-235 | The merge loop over the record's keys, in any order, yields exactly `Merged`. |
| App.Page.VoiceCollect | webapp/static/js/app.js:219-252 | Without a template nothing happens. A template without fields fails after the introduction. A completed session merges its record into the form and announces success. A cancelled one leaves every input unchanged and announces cancellation. The button ends enabled. |
| App.Page.ReadForm | webapp/static/js/app.js:260-265 | The entries loop reads exactly `FormEntries` of the inputs. |
| App.Page.Submit | webapp/static/js/app.js:255-291 | Without a stored face or a current face nothing is sent. Otherwise the form data is sent with the stored face, its gender replaced by the first current face's. Only a successful registration followed by a status reply updates the count, resets and hides the form and clears the overlay. |
| App.Page.Cancel | webapp/static/js/app.js:294-298 | The form is reset and hidden and the overlay cleared. |
| Storage.CalculateDistance | shared/storage_manager.py:160-166 | The distance is infinite iff the embeddings differ in length. |
| Storage.BelowThenNotBelow | shared/storage_manager.py:137 | The strict float order on distances is transitive across `<` and `<=`. |
| Storage.NearestAt | shared/storage_manager.py:133-139 | A first nearest position is never beaten, and it is strictly below every earlier one. |
| Storage.FirstNearestUnique | shared/storage_manager.py:133-139 | There is only one first nearest position, so the tie rule picks one record. |
| Storage.NewRecord | shared/storage_manager.py:101-108 | A new record stores the given data and embedding, the embedding's length as its dimension, and the configured model. |
| Storage.StorageManager.constructor | shared/storage_manager.py:19-31 | The table holds what was loaded. |
| Storage.StorageManager.AddUser | shared/storage_manager.py:99-114 | It returns the new id and appends exactly one record at the end. The earlier records are unchanged and the count grows by one. |
| Storage.StorageManager.GetUserCount | shared/storage_manager.py:168-170 | The count is the number of records. |
| Storage.StorageManager.FindMatchingUser | shared/storage_manager.py:127-146 | `None` iff no distance is strictly below the threshold (so always for an empty table). Otherwise it returns the earliest record at the smallest distance, which is below the threshold. A returned record's embedding has the probe's length. |
| FaceRecognition.GetGenderFromAnalysis | shared/face_recognition_module.py:164-184 | The result is always `Male`, `Female` or `Unknown`. |
| FaceRecognition.GenderRule | shared/face_recognition_module.py:174-184 | `Unknown` iff the analysis is missing or empty or its `gender` entry is not a mapping. `Male` iff the entry is a mapping whose `Man` confidence exceeds its `Woman` one, both defaulting to 0. |
| FaceRecognition.MissingGenderIsFemale | shared/face_recognition_module.py:177-182 | A non-empty analysis without a `gender` entry gives `Female`. |
| FaceRecognition.GenderSwap | shared/face_recognition_module.py:180-182 | Exchanging two different confidences exchanges `Male` and `Female`. Equal confidences give `Female`. |

## Left out

- Speech synthesis and recognition are oracles. `speak` appends to a log and never fails. `listen` takes the next scripted outcome, and an exhausted script rejects. `stopListening`, `stopSpeaking` and `initRecognition` are not modelled; a missing recogniser is a script of rejections.
- `listen` always settles in the model. In the source a recognition session that ends with neither a result nor an error only clears `isListening` (the `onend` handler), so its promise stays pending and the whole collection waits for ever.
- The 500 ms pause before listening, and the interleaving of other handlers between `await`s, are not modelled. Each handler runs to completion.
- Lower-casing is `toLowerCase` restricted to ASCII letters; other scripts' case mappings are not modelled.
- Each `fetch` is a `Settled` parameter, as are the camera's start result and the captured frame (a string). A failing JSON parse counts as a rejection.
- The `face_detection.js` wrappers are not part of this model. Neither is the geometry of `drawFaceBoxes`: the overlay is the list of faces drawn, or empty.
- Console output, alerts, `innerHTML` rendering, status text decoration, button captions and CSS classes are left out. The detection and recognition panels record only the face or the recognition outcome they show.
- The user typing into the form is not modelled.
- `getElementById` looks only at the form's inputs; another page element with the same id is not modelled.
- A template field without a `name` is modelled as the empty name. JavaScript would store it under the key `undefined`.
- Keys such as `__proto__`, and the order `Object.entries` lists keys in: the merge is proved independent of key order.
- Several DOM behaviours are simplified:
  - the form inputs are a sequence, to model duplicate ids and names;
  - `placeholder` and the label's `for` are left out;
  - `required` is left out, and so is the browser's constraint validation;
  - a `number` input keeps a value only when it is a valid floating-point number in the sense of the HTML standard, and keeps the empty string otherwise.
- The initial markup is assumed: capture disabled, start and voice buttons enabled, the form hidden.
- A detection reply is assumed always to carry a face list.
- `App.Page.Submit` runs without constraint validation. Every generated input is `required`, so in the page the submit handler runs only when every input is non-empty. `App.VoiceThenSubmit`'s empty entry for an unanswered `integer` field therefore describes a form the browser refuses to submit until the user fills that input.
- `App.Page.Submit`: the registration's reply text is not shown. A missing stored face or current face fails before sending, as the source's exception does.
- Storage:
  - `load_database`, `save_database` and the model-compatibility warning are file I/O and console output;
  - the constructor takes the loaded records;
  - the id (`uuid4`), the timestamp (`datetime.now`) and the configured model are parameters;
  - `get_all_users` is a plain read of `users`.
- `np.linalg.norm` is a given function into the reals; NaN and floating-point rounding are not modelled. The threshold is a parameter.
- Confidences are reals. Non-numeric confidence values, and an analysis that is neither a mapping nor missing, are not modelled.
- `Voice.RunField`: `maxRetries` is a natural number; a negative value, which gives zero attempts in the source, is not modelled.
- The rest of the face module (detection, analysis, embeddings, drawing), the Flask routes, the camera wrapper and the Android host are not part of this model.
