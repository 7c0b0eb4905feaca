# Medicine recommendation: a Dafny model of the symptom checker and its back end

This project models the parts of the Medicine-Recommendation application that carry
sequential logic, and proves properties about them:

- **The symptom-checker page** (`SymptomChecker`, from `PredictionPage.tsx`). The page is a
  class holding:
  - the ordered list of selected symptom ids;
  - the free-text notes;
  - the `isAnalyzing` flag;
  - the three analysis stages, as an array;
  - the prediction text.

  Toggling a symptom appends an absent id or removes every occurrence of a present one. The
  "Get Recommendation" button is disabled when nothing is selected or an analysis is running.
  Notes play no part in that. A run marks the stages complete one step at a time, left to
  right. It then shows the text built from one of three fixed mock records, chosen by
  `Math.floor(Math.random() * 3)`.
- **The recommendation back end** (`Backend`, from `Backend/app.py`). It covers:
  - splitting the comma-separated symptom string;
  - the 0/1 input vector over the model's columns;
  - `clean_list_data`;
  - the five per-disease lookups with their fallback messages;
  - the checks the `/predict` route makes before it builds a recommendation (415, 400, and the
    exceptions that end in 500).
- **The sign-in form** (`Auth`, from `AuthPage.tsx`). Validation runs in a fixed order: both
  fields filled, then an `@` in the email, then a password of at least 6 UTF-16 code units. It
  either sets an error message or reports success. A separate flag switches between sign-in
  and sign-up.
- **The page switch** (`Navigation`, from `App.tsx`). There are three pages. The page
  handlers change the page, and so does the effect that runs when a signed-in user appears.
  While the provider is loading, none of the three pages is shown; a loading indicator is.
  The symptom checker opens after a sign-in form that merely passes its own local checks.
  The form never calls the auth provider.

The three mock records are a constant field of the page, set when the page is built. In the
source they are a constant array inside `handlePredict`.

`Text` gives Python's `str.split`, `str.strip`, `str.lower` (for the `'nan'` test) and the
`join` of both languages. Its whitespace test, `Text.IsSpace`, is the set of characters for
which Python's `str.isspace()` holds, written out as code points. `Wrappers` holds `Option` and `Result`.

Timers (`setTimeout`) become consecutive steps. `Math.random()` becomes a parameter in
`[0, 1)`. The trained model and label encoder, difflib's close-match search and
`ast.literal_eval` are function-valued fields of `Backend.Engine`. The CSV tables are
sequences of rows.

Behaviour of the code that the model keeps:

- The submit gate is "selection non-empty and not analysing". The notes play no part in it.
- A run ignores which symptoms are selected. The text comes from a random mock record.
- A run that starts cannot be cancelled or superseded. Nothing stops a stale run.
- The selection is an ordered list, not a set. A re-selected id goes to the end.
- The stages are not reset when a run starts. During a second run, the stages from the first
  run are still complete until the first step rewrites all of them. `WithProgress` overwrites
  every status, so from the first step on the list is exact.

## Model

| member | source | states |
|---|---|---|
| `Text.Split` | Backend/app.py:16-17 | `split(",")` yields at least one part, and no part contains the separator |
| `Text.JoinSplit` | Backend/app.py:16-19 | joining the split parts with the separator gives back the input: nothing is trimmed or dropped |
| `Text.SplitLength` | Backend/app.py:17 | there is one more part than there are separators |
| `Text.StripStart` | Backend/app.py:69 | `lstrip` removes exactly the leading whitespace: the result is a suffix that does not start with whitespace |
| `Text.StripEnd` | Backend/app.py:69 | `rstrip` removes exactly the trailing whitespace |
| `Text.Strip` | Backend/app.py:69 | `strip()` yields a slice of its input with only whitespace removed before and after it, and the slice neither starts nor ends with whitespace |
| `Text.Join` | Frontend/project/src/components/PredictionPage.tsx:133 | a non-empty join starts with its first part |
| `Text.StrippedIsFixed` | Backend/app.py:76 | `strip()` leaves a string with no whitespace at either end unchanged |
| `Text.IsNanTextCases` | Backend/app.py:69 | `s.lower() == 'nan'` holds exactly for the three-letter spellings of "nan" in any mix of cases |
| `SymptomChecker.Without` | Frontend/project/src/components/PredictionPage.tsx:88 | the filter removes the id and keeps every other id |
| `SymptomChecker.Toggle` | Frontend/project/src/components/PredictionPage.tsx:85-90 | toggling flips the membership of the id and keeps every other id; an absent id is appended at the end |
| `SymptomChecker.WithoutMembers` | Frontend/project/src/components/PredictionPage.tsx:88 | removal zeroes the count of the id and leaves every other count unchanged |
| `SymptomChecker.WithoutConcat` | Frontend/project/src/components/PredictionPage.tsx:88 | removal keeps order: it distributes over concatenation |
| `SymptomChecker.ToggleKeepsDistinct` | Frontend/project/src/components/PredictionPage.tsx:86-90 | a duplicate-free selection stays duplicate-free after a toggle |
| `SymptomChecker.ToggleTwiceAbsent` | Frontend/project/src/components/PredictionPage.tsx:86-90 | toggling an absent id twice restores the exact list |
| `SymptomChecker.TogglePresentTwice` | Frontend/project/src/components/PredictionPage.tsx:86-90 | toggling a present id twice restores the same set of ids, with that id moved to the end and its duplicates gone |
| `SymptomChecker.WithProgress` | Frontend/project/src/components/PredictionPage.tsx:100-103 | after a step, stages below the bound are complete and the rest pending; titles and descriptions are unchanged |
| `SymptomChecker.WithProgressAgain` | Frontend/project/src/components/PredictionPage.tsx:100-103 | a step overwrites every status, so earlier statuses do not matter |
| `SymptomChecker.CompleteCountPrefix` | Frontend/project/src/components/PredictionPage.tsx:98-104 | when exactly the stages below `k` are complete, `min(k, n)` stages are complete |
| `SymptomChecker.ProgressionStepwise` | Frontend/project/src/components/PredictionPage.tsx:98-104 | each step turns exactly one more stage, the next from the left, from pending to complete, and changes nothing else |
| `SymptomChecker.PickIndex` | Frontend/project/src/components/PredictionPage.tsx:128 | `Math.floor(random * n)` with `random` in `[0, 1)` is a valid record index |
| `SymptomChecker.InitialAnalyses` | Frontend/project/src/components/PredictionPage.tsx:67-83 | the page starts with three stages, all pending |
| `SymptomChecker.PredictionText` | Frontend/project/src/components/PredictionPage.tsx:131-136 | every text starts with the fixed opening followed by the condition |
| `SymptomChecker.PredictionTextSections` | Frontend/project/src/components/PredictionPage.tsx:131-136 | the text holds the fixed opening, the condition, the medications joined by newlines, the advice and the warning, in that order and at fixed offsets |
| `SymptomChecker.MedicationsSingleLine` | Frontend/project/src/components/PredictionPage.tsx:107-126 | every fixed record lists at least one medication, and none contains a newline |
| `SymptomChecker.MedicationsRecoverable` | Frontend/project/src/components/PredictionPage.tsx:133 | splitting the joined medications at newlines gives back the record's list |
| `SymptomChecker.PredictionPage.constructor` | Frontend/project/src/components/PredictionPage.tsx:63-83 | the page starts with an empty selection, empty notes, no prediction, not analysing, the three stages pending, and the three fixed records to pick from |
| `SymptomChecker.PredictionPage.ToggleSymptom` | Frontend/project/src/components/PredictionPage.tsx:85-91 | the new selection is the toggle of the old one; duplicate-freedom is preserved |
| `SymptomChecker.PredictionPage.SetNotes` | Frontend/project/src/components/PredictionPage.tsx:197-206 | the notes are replaced verbatim, and the submit gate is unaffected |
| `SymptomChecker.PredictionPage.BeginAnalysis` | Frontend/project/src/components/PredictionPage.tsx:94-95 | a run starts with `isAnalyzing` true and the prediction cleared |
| `SymptomChecker.PredictionPage.AdvanceStage` | Frontend/project/src/components/PredictionPage.tsx:99-103 | loop step `i` makes exactly stages `0..i` complete and records the new stage list |
| `SymptomChecker.PredictionPage.FinishAnalysis` | Frontend/project/src/components/PredictionPage.tsx:128-138 | the prediction becomes the text of the record at `floor(random * 3)`, and analysing stops |
| `SymptomChecker.PredictionPage.Predict` | Frontend/project/src/components/PredictionPage.tsx:93-139 | the run shows one snapshot per step, with exactly `k+1` stages complete after step `k`; at the end all stages are complete with titles and descriptions kept, the prediction is the picked record's text, analysing has stopped, and selection and notes are untouched |
| `SymptomChecker.PredictionPage.SubmitDisabled` | Frontend/project/src/components/PredictionPage.tsx:206 | the button is disabled when nothing is selected or a run is in progress, and enabled otherwise; the notes play no part |
| `SymptomChecker.PredictionPage.ClickSubmit` | Frontend/project/src/components/PredictionPage.tsx:204-206 | a run happens exactly when the selection is non-empty and no analysis is running; selection and notes are kept either way; a refused click changes nothing; a run leaves the picked record's text, one snapshot per step, and every stage complete with its title and description kept |
| `Backend.ParseSymptoms` | Backend/app.py:15-19 | both branches equal `split(",")`, and joining the parts with commas restores the input |
| `Backend.ReplaceUnderscores` | Backend/app.py:47 | every underscore becomes a space, and every other character is kept in place |
| `Backend.FindClosestSymptom` | Backend/app.py:45-50 | when the matcher only returns candidates, as difflib does, a match is one of the columns |
| `Backend.UnderscoreIsSpace` | Backend/app.py:47 | names that differ only in writing `_` or a space get the same match |
| `Backend.MarkMatch` | Backend/app.py:56-58 | a truthy match that is not a column raises IndexError; otherwise exactly the entry at the first column equal to a truthy match becomes 1, and every other entry is kept |
| `Backend.Truthy` | Backend/app.py:56 | `if matched_symptom:` accepts a match exactly when it is present and not the empty string |
| `Backend.Zeros` | Backend/app.py:53 | `np.zeros(n)` has `n` entries, all zero |
| `Backend.FirstIndex` | Backend/app.py:57 | the index of the first column equal to the match, or none when the match is not a column |
| `Backend.InputVector` | Backend/app.py:53-61 | the vector has one entry per column; the only exception it raises is IndexError |
| `Backend.InputVectorEntries` | Backend/app.py:53-58 | every entry is 0 or 1, and an entry is 1 exactly when its column is the first one equal to some symptom's match |
| `Backend.InputVectorFails` | Backend/app.py:55-58 | the loop raises exactly when some symptom is matched to a name that is not a column |
| `Backend.CandidateMatchesNeverFail` | Backend/app.py:45-58 | when every match is one of the columns, as difflib guarantees, the vector is always built |
| `Backend.UnmatchedLeavesVector` | Backend/app.py:56-61 | a symptom without a match leaves the vector unchanged |
| `Backend.FailurePersists` | Backend/app.py:54-58 | once a symptom raises, the whole loop ends with that error |
| `Backend.BuildInputVector` | Backend/app.py:53-58 | the loop over a zero-filled array computes `InputVector` |
| `Backend.Str` | Backend/app.py:69 | `str()` of a string is the string itself, and `str(None)` is `"None"` |
| `Backend.KeptFromList` | Backend/app.py:69 | an item passes the list filter exactly when it is not None and its text is not `nan` in any of the eight case spellings |
| `Backend.FlatMap` | Backend/app.py:69 | a comprehension over no items is empty, and otherwise begins with the first item's results |
| `Backend.FlatMapConcat` | Backend/app.py:69 | a filtering list comprehension keeps order: over a concatenation it concatenates the results |
| `Backend.FlatMapMembers` | Backend/app.py:69 | a string is in a comprehension's result exactly when some item produced it |
| `Backend.CleanItem` | Backend/app.py:69 | an item yields its stripped text exactly when it is neither None nor "nan", and nothing otherwise |
| `Backend.CleanItems` | Backend/app.py:68-69 | the list branch returns stripped strings and at most one per input item |
| `Backend.CleanParsedItem` | Backend/app.py:76 | a parsed item yields its stripped text exactly when it is not None |
| `Backend.CleanParsedItems` | Backend/app.py:75-76 | the parsed-list branch returns stripped strings and at most one per item |
| `Backend.Bracketed` | Backend/app.py:71 | a bracketed string has at least two characters, so a lone `[` does not count |
| `Backend.CleanParsedItemsMembers` | Backend/app.py:76 | a string is in the parsed-list result exactly when some item other than None strips to it |
| `Backend.CleanParsedItemsConcat` | Backend/app.py:76 | the parsed-list branch keeps order: over a concatenation it concatenates the results |
| `Backend.CleanListData` | Backend/app.py:67-80 | results are stripped; a list yields the list branch's result; a bracketed string that parses to a list yields the parsed-list branch's result on its items; any other string yields `[data.strip()]`; another type yields `[]` |
| `Backend.CleanItemsConcat` | Backend/app.py:69 | cleaning keeps order: cleaning a concatenation concatenates the results |
| `Backend.CleanItemsMembers` | Backend/app.py:69 | a string is in the result exactly when some item is neither None nor "nan" and strips to it |
| `Backend.NanKeptOnlyInParsedStrings` | Backend/app.py:68-76 | a "nan" text in any case is dropped from a list cell, but kept unchanged when it comes out of a bracketed string that parses to a list |
| `Backend.FindRow` | Backend/app.py:83-85 | the row read is the first row for the disease, or none when the disease is absent |
| `Backend.CellData` | Backend/app.py:85 | a table cell is never a list; it takes the string branch exactly when it is a string, with its own text |
| `Backend.NonStringCellIsEmpty` | Backend/app.py:67-80 | a cell that is not a string (a NaN, a number, None) cleans to the empty list |
| `Backend.GetDiet` | Backend/app.py:82-86 | `["No diet info found"]` when the disease is absent; otherwise the cleaned first cell of the first matching row |
| `Backend.GetDescription` | Backend/app.py:88-91 | the plain string `"No description found"` when the disease is absent; otherwise `str` of the first matching row's cell |
| `Backend.GetMedication` | Backend/app.py:93-97 | `["No medication info found"]` when the disease is absent; otherwise the cleaned first cell of the first matching row |
| `Backend.GetPrecautions` | Backend/app.py:99-103 | `["No precautions found"]` when the disease is absent; otherwise the whole row after the disease column, cleaned as a list |
| `Backend.GetWorkout` | Backend/app.py:105-109 | `["No workout info found"]` when the disease is absent; otherwise the cleaned first cell of the first matching row |
| `Backend.Predict` | Backend/app.py:52-65 | the prediction fails exactly when some match is not a column; otherwise it is the classifier's label for the input vector; a failure is an IndexError |
| `Backend.NewRecommendation` | Backend/app.py:15-43 | a recommendation holds the split symptoms and the predicted disease, and is always built when matches are columns; a failure is an IndexError |
| `Backend.JsonTruthy` | Backend/app.py:130 | `not data` holds exactly for null, false, 0, the empty string, the empty list and the empty object |
| `Backend.Contains` | Backend/app.py:130 | `in` raises TypeError exactly on null, booleans and numbers; on an object it tests the keys, on a list its elements |
| `Backend.NotAStringError` | Backend/app.py:16-17 | a non-string `symptoms` raises TypeError when it is null, a boolean or a number, and AttributeError when it is a list or an object |
| `Backend.CheckRequest` | Backend/app.py:121-135 | 415 exactly when the request is not JSON; 400 exactly when the body is empty or lacks `symptoms`; the handler proceeds exactly when the body is an object whose `symptoms` is a string; a body that does not parse gives a 500 naming BadRequest; a non-object body that passes `in` gives a 500 naming TypeError; a non-string `symptoms` gives a 500 naming the exception it raises |
| `Backend.ResponseFields` | Backend/app.py:140-147 | a successful response has exactly the six keys |
| `Backend.HandlePredict` | Backend/app.py:115-158 | a rejection returns the check's response; a request that passes the checks but whose input vector fails gets a 500 naming IndexError; otherwise the status is 200 and the body is the six fields of the recommendation |
| `Auth.Utf16Length` | Frontend/project/src/components/AuthPage.tsx:24 | JavaScript's length lies between the number of characters and twice that |
| `Auth.Utf16LengthChar` | Frontend/project/src/components/AuthPage.tsx:24 | one character counts one code unit, two when it lies beyond U+FFFF |
| `Auth.Utf16LengthConcat` | Frontend/project/src/components/AuthPage.tsx:24 | the code-unit count of a concatenation is the sum of the counts |
| `Auth.Utf16LengthAstral` | Frontend/project/src/components/AuthPage.tsx:24 | text made only of characters beyond U+FFFF counts two code units per character |
| `Auth.Utf16LengthBmp` | Frontend/project/src/components/AuthPage.tsx:24 | for text within the Basic Multilingual Plane it equals the number of characters |
| `Auth.Validate` | Frontend/project/src/components/AuthPage.tsx:19-32 | success exactly when the email is non-empty and contains `@` and the password is at least 6 long; otherwise the message of the first failing check, in order: fields, email, length |
| `Auth.RejectionIsVisible` | Frontend/project/src/components/AuthPage.tsx:17-32 | a rejection always carries one of the three non-empty messages |
| `Auth.PasswordBoundary` | Frontend/project/src/components/AuthPage.tsx:24-27 | with a valid email, a BMP password passes exactly when it has 6 or more characters |
| `Auth.AstralPasswordBoundary` | Frontend/project/src/components/AuthPage.tsx:24-27 | with a valid email, a password made only of characters beyond U+FFFF passes exactly when it has 3 or more characters |
| `Auth.AuthPage.constructor` | Frontend/project/src/components/AuthPage.tsx:10-13 | the form starts in sign-in mode with empty fields and no error |
| `Auth.AuthPage.SetEmail` | Frontend/project/src/components/AuthPage.tsx:73 | the email field takes the typed value |
| `Auth.AuthPage.SetPassword` | Frontend/project/src/components/AuthPage.tsx:90 | the password field takes the typed value |
| `Auth.AuthPage.HandleSubmit` | Frontend/project/src/components/AuthPage.tsx:15-33 | success is reported exactly when validation accepts, and then the error is cleared; otherwise the error is the first failing check's message; exactly one of the two happens; the mode plays no part |
| `Auth.AuthPage.ToggleMode` | Frontend/project/src/components/AuthPage.tsx:123 | the mode flips, so two toggles restore it |
| `Navigation.Step` | Frontend/project/src/App.tsx:13-30 | "get started" leads to auth; auth success leads to prediction; logout and back lead to landing; a signed-in user leads to prediction; a signed-out user leaves the page alone |
| `Navigation.PredictionNeedsFormOrUser` | Frontend/project/src/App.tsx:13-25 | from another page, the symptom checker is reached only after a form submit that passed local validation, or a signed-in user appearing |
| `Navigation.LastEventDecides` | Frontend/project/src/App.tsx:27-52 | whatever came before, a final logout or back shows the landing page |
| `Navigation.PagesShown` | Frontend/project/src/App.tsx:32-53 | exactly one page is rendered when not loading, the current one, and none while loading |
| `Navigation.AppContent.constructor` | Frontend/project/src/App.tsx:11 | the initial page is landing |
| `Navigation.AppContent.HandleGetStarted` | Frontend/project/src/App.tsx:19-21 | always moves to auth |
| `Navigation.AppContent.HandleAuthSuccess` | Frontend/project/src/App.tsx:23-25 | always moves to prediction |
| `Navigation.AppContent.HandleLogout` | Frontend/project/src/App.tsx:27-30 | calls the provider's logout once and moves to landing |
| `Navigation.AppContent.HandleBack` | Frontend/project/src/App.tsx:48-53 | back from auth or prediction moves to landing |
| `Navigation.AppContent.OnUserChanged` | Frontend/project/src/App.tsx:13-17 | a non-null user sets the page to prediction; a null user changes nothing |

## Left out

- `SymptomChecker.PredictionPage.Predict`: the run is one uninterrupted sequence. The model
  does not cover other handlers (toggles, notes, navigation) that run during the awaits, nor
  the 1000 ms and 500 ms delays.
- `Text.Lower`: only ASCII letters are lowered. This covers the `'nan'` comparison, because no
  other character lowers to `n` or `a`. It is not Python's full Unicode `lower()`.
- `Backend.Engine`: CSV loading and the column clean-up of lines 29-41 are not modelled
  (`Unnamed: 0` removal, dropping the first two workout columns). The tables arrive with the
  disease in their first column, as `.iloc[:, 1:]` assumes. The model assumes every row has at
  least one column after the disease. A table with only the disease column would make
  `.iloc[:, 1:].values[0][0]` raise IndexError, a 500, in `get_diet`, `get_description`,
  `get_medication` and `get_workout`, and would make `get_precautions` return `[]`; the model
  does not cover that case.
- `Backend.Engine`: the trained model, the label encoder, difflib's scoring and 0.6 cutoff, and
  `ast.literal_eval` are opaque functions. Exceptions the model, the encoder and difflib might
  raise are not modelled. A failure of `ast.literal_eval` is modelled: the bare `except` of
  `clean_list_data` swallows it. The engine's parser returns `None` for it, and the string then
  falls through to `[data.strip()]`.
- `Backend.BuildInputVector`: numpy's float zeros are integers here. The reshape to one row is
  left to the classifier.
- `Backend.HandlePredict`: the text of a 500 response (`str(e)`) is named by the exception
  kind only. Request logging, the traceback and `jsonify` serialisation are left out. JSON
  numbers are reals.
- The `/` route (`render_template`) and starting the server are not part of this model.
- `Navigation`: the auth provider's internals (`useAuth`, `user`, `logout`, `isLoading`) are
  not shown in the source. The model records calls to `logout`. `isLoading` and the user's
  appearance are inputs.
- Rendering, styling, icons, the static symptom catalogue and the landing page have no logic
  to model.
- Sign-up and login against the database, password hashing, JWT handling and the Flask
  blueprint and CORS wiring (`Backend/user/models.py`, `Backend/auth.py`,
  `Backend/user/routes.py`, `Backend/__init__.py`) are not part of this model.
