# ChipDog mobile client — a Dafny model of its local logic

ChipDog is a mobile app for pet owners. Owners sign in, list their pets and edit each pet's
profile: photo, lost flag, health notes and contacts. A finder can look up a lost pet by the
code on its tag. Almost everything the app does is a call to its backend. This project models
the part that is the client's own:

- the text helpers of `apps/mobile/App.tsx`. These are whitespace normalisation to null, pet
  initials, the `DD/MM/YYYY` birth-date label, and the phone sanitiser behind the `wa.me`
  and `tel:` links;
- the birth-date calendar. It holds the Monday-first month grid of `buildCalendarDays` and
  the previous/next month arrows, over the proleptic Gregorian calendar in place of the
  JavaScript `Date` object;
- the profile-edit validation of `savePetProfile` and the update payload it builds;
- the shared zod schemas of `packages/shared/src/index.ts`, stated as lists of issues. An
  input is accepted exactly when its list is empty;
- the client's local state. It holds the screen, the login fields, the pet list, the
  pet-id → signed-photo-URL map, the selection and the edit flag. The handlers that change
  it are methods of the class `AppState.App`. Each method is proved against a step function
  of the old state. Remote results are method parameters: the session, the query rows, each
  signing outcome, the upload outcome and the sign-out outcome.

Modules:

- `Wrappers`: `Option`, `Result`.
- `JsString`: ECMAScript whitespace, `trim`, ASCII upper-casing, decimal rendering and parsing,
  `padStart(2, '0')`.
- `Names`: `normalizeStringOrNull`, word splitting, `initialsFromName`.
- `Phone`: the sanitiser and the two links.
- `Calendar`: dates, weekdays, the grid, month navigation, `formatBirthDate`.
- `Numbers`: JavaScript numbers with NaN and the infinities, and their comparisons.
- `Profile`: the `savePetProfile` checks and payload.
- `Schemas`: `loginSchema`, `addPetSchema`, `linkTagSchema`.
- `AppState`: the state, the title, the signed-URL map and the class `App`.

## Model

| member | source | states |
|---|---|---|
| JsString.Trim | apps/mobile/App.tsx:60 | the result is empty exactly when the input is all ECMAScript whitespace; otherwise it is the slice between the leading and the trailing whitespace, and both of its ends are visible characters |
| JsString.TrimOfTrimmed | apps/mobile/App.tsx:60 | trimming a string with visible ends, or the empty string, returns it unchanged |
| JsString.PaddedRoundTrip | apps/mobile/App.tsx:91-92 | for 0..99 the `padStart(2, '0')` of its decimal form is exactly two digits and reads back as the number |
| JsString.IntToStringRoundTrip | apps/mobile/App.tsx:93 | `String(i)` of any integer, a minus sign before the digits of a negative one, parses back to that integer, so the year field determines the year |
| Names.NormalizeStringOrNull | apps/mobile/App.tsx:59-62 | null exactly when the input is all whitespace; otherwise the trimmed text, non-empty and with visible ends |
| Names.NormalizeIdempotent | apps/mobile/App.tsx:59-62 | normalising a non-null result again gives the same value |
| Names.FirstWordOf | apps/mobile/App.tsx:65 | the first piece of the split is a non-empty run of non-whitespace characters that starts at the name's first visible character |
| Names.AfterFirstWord | apps/mobile/App.tsx:65 | the name is its leading whitespace, its first word and a strictly shorter rest that is empty or starts with whitespace, so the first word is maximal |
| Names.WordsAreWords | apps/mobile/App.tsx:65 | every piece of `trim().split(/\s+/).filter(Boolean)` is a non-empty run of non-whitespace characters |
| Names.FirstWord | apps/mobile/App.tsx:65 | there are no words exactly when the name is all whitespace; the first word starts at the first visible character |
| Names.WordsKeepVisibleCharacters | apps/mobile/App.tsx:65 | the words, joined, are exactly the name's non-whitespace characters in order: the split loses and invents nothing |
| Names.InitialsFromName | apps/mobile/App.tsx:64-69 | `"?"` for a name without words; otherwise 1 or 2 characters, the upper-cased first visible character first; 2 exactly when there are at least two words, and then the second is the upper-cased first character of the second word |
| Phone.SanitizePhone | apps/mobile/App.tsx:649 | never longer than the input; keeps only ASCII digits and `'+'` |
| Phone.SanitizeAppend | apps/mobile/App.tsx:649 | sanitising a concatenation is the concatenation of the sanitised parts, so kept characters keep their order |
| Phone.SanitizeKeepsPhoneChars | apps/mobile/App.tsx:649 | each digit and `'+'` occurs as often in the result as in the input; every other character is gone |
| Phone.SanitizeIdempotent | apps/mobile/App.tsx:649 | a sanitised number is left unchanged by a second sanitising |
| Phone.RemoveFirstPlus | apps/mobile/App.tsx:651 | without a `'+'` the string is unchanged; otherwise exactly the first `'+'` is cut out |
| Phone.RemoveFirstPlusMultiset | apps/mobile/App.tsx:651 | removing the first `'+'` takes away one `'+'`, if any, and nothing else |
| Phone.WhatsAppUrl | apps/mobile/App.tsx:648-651 | no link exactly when nothing survives sanitising; else `https://wa.me/` followed by the sanitised number without its first `'+'` |
| Phone.WhatsAppNumber | apps/mobile/App.tsx:649-651 | the number in the link holds only digits and `'+'`, every digit of the input as often as typed, and one `'+'` fewer than typed |
| Phone.TelUrl | apps/mobile/App.tsx:660-663 | no link exactly when nothing survives sanitising; else `tel:` followed by the whole sanitised number |
| Calendar.DaysInMonth | apps/mobile/App.tsx:99 | 28 to 31 days; February has 29 exactly in leap years (divisible by 4, except by 100, except by 400); every other month has 30 or 31, and 31 exactly for January, March, May, July, August, October and December |
| Calendar.DayZeroIsLastDay | apps/mobile/App.tsx:99 | for a year outside 0..99, `new Date(y, m + 1, 0)` is the last day of month `m`, so its `getDate()` is the month's length |
| Calendar.PrevDateUndoesNextDate | apps/mobile/App.tsx:99 | the day before and the day after are inverse on valid dates |
| Calendar.YearLength | apps/mobile/App.tsx:98 | the day count across a year grows by 366 exactly in leap years, else by 365 |
| Calendar.MonthsFillYear | apps/mobile/App.tsx:98-99 | the twelve month lengths add up to the year's length |
| Calendar.DayNumberAdvances | apps/mobile/App.tsx:98 | consecutive dates have consecutive day numbers, across month and year ends |
| Calendar.WeekdayAdvances | apps/mobile/App.tsx:98 | `getDay()` of the next date is one more, modulo 7 |
| Calendar.UnixEpochWasThursday | apps/mobile/App.tsx:98 | the weekday function agrees with JavaScript's: 1 January 1970 was a Thursday |
| Calendar.MondayFirstWeekday | apps/mobile/App.tsx:98 | `(getDay() + 6) % 7` is in 0..6 and counts from Monday |
| Calendar.BuildCalendarDays | apps/mobile/App.tsx:96-105 | the grid drawn for a date is the month grid of its month in the year the `Date` constructor makes of `getFullYear()`: the date's own year outside 0..99, 1900 later inside it |
| Calendar.MonthGrid | apps/mobile/App.tsx:98-104 | the two loops give `offset` nulls, offset being the Monday-first weekday of the 1st, followed by 1..daysInMonth in order, for the month and year they are given |
| Calendar.GridAsWrittenShowsOtherYear | apps/mobile/App.tsx:97-99 | for December 99 the drawn grid is December 1999's, with two empty cells before the 1st, where the shown month's own grid has one |
| Calendar.MonthGridLength | apps/mobile/App.tsx:96-105 | a month grid has 28 to 37 cells, and exactly 28 for a common-year February starting on a Monday |
| Calendar.DayColumnIsWeekday | apps/mobile/App.tsx:96-105 | each day of the month occurs once, in the column (index mod 7) of its own Monday-first weekday |
| Calendar.MonthGridUnique | apps/mobile/App.tsx:96-105 | one month has one grid |
| Calendar.FirstOfMonth | apps/mobile/App.tsx:859 | for a year outside 0..99, `new Date(y, m, 1)` with a month index out of 0..11 carries into the year: a valid 1st of a month with the same linear month count |
| Calendar.PrevMonth | apps/mobile/App.tsx:857-861 | the intended previous-month arrow, about which the corrected member of the arrows' Findings row, `MonthArrowsInverse`, is proved: the 1st of the month one before, across January |
| Calendar.NextMonth | apps/mobile/App.tsx:870-874 | the intended next-month arrow, about which the corrected member of the arrows' Findings row, `MonthArrowsInverse`, is proved: the 1st of the month one after, across December |
| Calendar.MonthArrowsInverse | apps/mobile/App.tsx:857-874 | next-then-previous and previous-then-next both return to the 1st of the shown month |
| Calendar.JsConstructorYear | apps/mobile/App.tsx:97 | the year the `Date` constructor uses: the argument itself exactly outside 0..99, and 1900..1999 with the same last two digits inside it |
| Calendar.PrevMonthAsWritten | apps/mobile/App.tsx:859 | the arrow as written: the 1st of the month before, counted from the constructor's reading of the year |
| Calendar.NextMonthAsWritten | apps/mobile/App.tsx:872 | the arrow as written: the 1st of the month after, counted from the constructor's reading of the year |
| Calendar.ArrowsAsWrittenAgree | apps/mobile/App.tsx:859 | outside the years 0..99 the arrows as written equal the intended arrows |
| Calendar.ArrowsAsWrittenJump | apps/mobile/App.tsx:859 | as written, January 100 goes back to December 99 and then to November 1999, and December 99 goes forward to January 2000 |
| Calendar.FormatBirthDate | apps/mobile/App.tsx:90-94 | two digits, `'/'`, two digits, `'/'`, the year; the first pair reads back as the day, the second as the 1-based month, and the rest parses back to the year |
| Numbers.NaNEscapesComparisons | apps/mobile/App.tsx:309 | no `<`, `>` or `<=` holds for NaN |
| Numbers.FiniteGuardIsInterval | apps/mobile/App.tsx:309 | a finiteness test followed by `!(x < lo) && !(x > hi)` holds exactly on the closed interval |
| Profile.OptionalNumber | apps/mobile/App.tsx:306-307 | null exactly when the text is blank; otherwise the host's `Number` of the text |
| Profile.ValidateProfile | apps/mobile/App.tsx:303-334 | no selection, no save. Accepted exactly when each numeric field is blank, or converts to a finite value: birth year in [1990, 2035], weight in (0, 120]. A bad birth year is reported before the weight, and a bad weight with a good or blank birth year is reported as the weight. Accepted numbers are null exactly for blank text, and are otherwise the converted value |
| Profile.PayloadTextIsNormalized | apps/mobile/App.tsx:318-334 | each of the ten text columns of an accepted payload comes from its own draft field: null exactly when that field is blank, otherwise the trimmed field, non-empty with visible ends |
| Profile.OnlyNumbersDecide | apps/mobile/App.tsx:306-316 | whether and why the save stops depends on the selection and the two numeric fields only |
| Profile.BlankDraftClearsAll | apps/mobile/App.tsx:303-334 | an all-blank form is accepted and sets every column to null |
| Profile.FractionalBirthYearAccepted | apps/mobile/App.tsx:309 | the guard checks the range, not integrality: a birth year of 1990.5 passes into the payload |
| Schemas.MinLength | packages/shared/src/index.ts:5 | `min(n)` reports nothing exactly when the length is at least n, else one too-short issue |
| Schemas.MaxLength | packages/shared/src/index.ts:18 | `max(n)` reports nothing exactly when the length is at most n, else one too-long issue |
| Schemas.LoginIssues | packages/shared/src/index.ts:3-6 | accepted exactly when the e-mail is well formed and the password has at least 6 characters; each failure appears as its own issue, in key order |
| Schemas.PasswordThreshold | packages/shared/src/index.ts:5 | with a well-formed e-mail: accepted exactly when the password length is at least 6, otherwise the single password issue |
| Schemas.BirthYearIssues | packages/shared/src/index.ts:13 | absent passes; NaN gives only the type issue; otherwise accepted exactly for an integer in [1990, currentYear] |
| Schemas.InfiniteYearIssues | packages/shared/src/index.ts:13 | an infinite year is reported both as not an integer and as out of range |
| Schemas.PickedYearAccepted | packages/shared/src/index.ts:13 | an integer year, as the form sends it, is accepted exactly inside [1990, currentYear] |
| Schemas.PhotoUrlIssues | packages/shared/src/index.ts:14 | absent, `''` or a URL passes; any other string gives the URL issue |
| Schemas.PartsInKeyOrder | packages/shared/src/index.ts:8-15 | the per-key issue lists, concatenated in declaration order, are in key order |
| Schemas.AddPetIssues | packages/shared/src/index.ts:8-15 | accepted exactly when name and species have at least 2 characters, the birth year passes its rule and the photo URL passes its rule; name and species failures are reported, in key order |
| Schemas.BreedAndColorIgnored | packages/shared/src/index.ts:11-12 | breed and colour, present or absent, never change the issues |
| Schemas.LinkTagIssues | packages/shared/src/index.ts:17-19 | accepted exactly when the code has 3 to 50 characters; at most one issue, naming the violated bound |
| Schemas.CustomMessage | packages/shared/src/index.ts:3-19 | only length-minimum issues carry the schemas' own messages, and the short-password issue always does |
| AppState.ScreenTitle | apps/mobile/App.tsx:156-173 | the fixed title of each screen; the detail screen shows the selected pet's name, or "Perfil" with nothing selected |
| AppState.TitleIgnoresSelection | apps/mobile/App.tsx:156-173 | off the detail screen the title does not depend on the selection |
| AppState.TitlesTellScreensApart | apps/mobile/App.tsx:156-173 | different screens other than the detail screen have different titles |
| AppState.SignedUrlsKeysArePetIds | apps/mobile/App.tsx:198-222 | the signed-URL map has an entry for every pet and no key that is not a pet id; an empty list gives an empty map |
| AppState.SignedUrlsLastWins | apps/mobile/App.tsx:203-221 | a pet's entry is null when it has no photo path or its signing failed, its signed URL otherwise; if two rows share an id, the later one wins |
| AppState.SignedUrlsKeys | apps/mobile/App.tsx:221 | the map's keys depend on the pets only, never on the signing outcomes |
| AppState.SignedUrlsEntry | apps/mobile/App.tsx:203-221 | an id's entry depends only on the rows with that id |
| AppState.SignedUrlsFailureIsLocal | apps/mobile/App.tsx:203-221 | changing one pet's signing outcome, a failure included, changes no key and no other pet's entry |
| AppState.SetLost | apps/mobile/App.tsx:296 | a null selection stays null; a selected pet gets the new lost flag and keeps every other field |
| AppState.SetPhoto | apps/mobile/App.tsx:425 | a null selection stays null; a selected pet gets the new photo path and keeps every other field |
| AppState.PhotoPath | apps/mobile/App.tsx:397 | the path starts with the user's id and a `'/'` |
| AppState.PhotoPathsDistinct | apps/mobile/App.tsx:397 | for user ids without a `'/'`, a path determines both the user and the pet, so no two pets share a photo |
| AppState.LogoutClearsSession | apps/mobile/App.tsx:530-547 | after a successful sign-out: login screen, no pets, no selection, no detail photo, not editing, empty e-mail and password, not loading; the URL map stays as it was |
| AppState.FailedLogoutKeepsState | apps/mobile/App.tsx:530-538 | a failed sign-out changes nothing but the loading flag, which ends cleared |
| AppState.SignedOutIsLogoutWithoutCredentials | apps/mobile/App.tsx:469-475 | the signed-out auth event resets what logout resets, but keeps the credentials and the loading flag; it is idempotent |
| AppState.LostStatusChangesOnlyTheFlag | apps/mobile/App.tsx:288-301 | without a refresh, the lost-status update changes only the selected pet's flag, and a null selection stays null |
| AppState.UploadChangesOnlyThePhoto | apps/mobile/App.tsx:415-431 | without a refresh, a saved photo changes only the selected pet's path and the detail photo URL, and a null selection stays null |
| AppState.FetchKeepsCoherent | apps/mobile/App.tsx:175-196 | after a refresh every listed pet has an entry in the signed-URL map, whatever the refresh returned |
| AppState.App.constructor | apps/mobile/App.tsx:108-119 | starts on the login screen with empty fields, no pets, an empty map and nothing selected |
| AppState.App.LoadHomePetPhotos | apps/mobile/App.tsx:198-222 | the map becomes the signed-URL map of the resolved pets; nothing else changes |
| AppState.App.FetchPets | apps/mobile/App.tsx:175-196 | no user or a query error leaves the state as it was; rows replace the pet list and rebuild the map, and every listed pet keeps a map entry |
| AppState.App.LoadSelectedPetPhoto | apps/mobile/App.tsx:224-239 | the detail photo URL becomes null without a path or on a signing error, the signed URL otherwise; nothing else changes |
| AppState.App.Logout | apps/mobile/App.tsx:530-547 | the new state is the logout step of the old one, and every listed pet keeps its map entry |
| AppState.App.AuthStateChanged | apps/mobile/App.tsx:462-476 | a session refreshes and shows the home screen; no session resets the state as the signed-out step says |
| AppState.App.Init | apps/mobile/App.tsx:436-458 | a session refreshes and shows home; no session or an error shows login; loading ends cleared |
| AppState.App.UpdatePetLostStatus | apps/mobile/App.tsx:288-301 | a failed update only clears loading; otherwise the selection gets the new flag, the list is refreshed and loading ends cleared |
| AppState.App.SavePetProfile | apps/mobile/App.tsx:303-359 | a rejected form changes nothing; a failed update only clears loading; otherwise the saved row becomes the selection, editing stops, the list is refreshed and loading ends cleared |
| AppState.App.PickAndUploadPetPhoto | apps/mobile/App.tsx:361-431 | the early exits change nothing; a failed upload or row update only clears loading; a saved photo updates the selection's path and the detail URL, then refreshes the list |

## Left out

- Every backend call is out of the model: auth, table queries, the tag RPC, storage upload and signing. Their outcomes are parameters of the methods.
- `handleLogin`, `handleCreatePet` and `handleLinkTag` are not modelled. They check their input with `loginSchema`, `addPetSchema` and `linkTagSchema` respectively, which are modelled; the rest of each is requests, alerts and navigation.
- `handleFoundLookup` is not modelled. It trims the typed code and stops with an alert when nothing is left, with no schema; the rest is the tag lookup request and navigation.
- `loadPetDetail` is not modelled. It validates nothing: it fetches one row, makes it the selection, leaves editing, fills the edit form from the row and loads its photo.
- The conditional tag update `.is('pet_id', null)` is left out. Its meaning is the backend's.
- The image picker, base64 decoding, `Linking`, `Alert` and the console are left out.
- React rendering, hooks, batching of state updates and styles are left out. Each setter is an immediate field write.
- Concurrency of the handlers is left out. Every handler is async, and its `await`s let other handlers and the auth listener run in between; the model runs each handler to completion as one step, one at a time. `Coherent` and `App.Valid()` depend on this: `fetchPets` writes the list before it awaits the signing, so two overlapping refreshes could leave the list of one and the map of the other, with a listed pet missing from the map.
- The `mounted` guard of the start-up effect is left out. The model assumes the component stays mounted.
- The `Promise.all` in `loadHomePetPhotos` becomes a sequential map. Each pet comes with its own signing outcome.
- `toLocaleDateString` (the month title) is left out.
- JavaScript `Number()` parsing is a parameter, `toNumber`. Finite numbers are exact reals, so floating-point rounding is not modelled.
- InitialsFromName: upper-casing covers ASCII letters only; other letters keep their case. JavaScript's `toUpperCase` can lengthen a character (`'ß'` becomes `"SS"`), so the source's initials can run to three or four characters; the bound of one or two holds under ASCII upper-casing only.
- Strings are sequences of Unicode scalar values, not UTF-16 code units. So `name[0]` of a word and zod's string lengths differ from JavaScript for characters outside the Basic Multilingual Plane.
- zod's e-mail and URL grammars are parameters, `isEmail` and `isUrl`.
- The schemas follow zod version 3: checks go on after a failed one, `NaN` gives only the type issue, and `z.number()` accepts the infinities. Zod 4 rejects infinite numbers, and `InfiniteYearIssues` would not hold for it. The package manifest that pins the version is not part of this model.
- The schemas take typed inputs, so zod's type errors for non-string values are not modelled.
- `currentYear`, fixed when the shared module loads, is a parameter.
- `CustomMessage`: zod's default message texts are not modelled. `None` stands for them.
- The dates of the `Date` object are unbounded proleptic Gregorian dates. The object's range limit of ±8.64e15 ms, time zones and clock reads are left out.
- `normalizeStringOrNull`'s `?? ''` for a null or undefined argument is left out. Every caller passes a string.
- The title text of the found-tag screen carries its accented letter as intended, "Encontré". The source file spells that letter double-encoded (`Encontr√©`).
- `apps/mobile/app.config.ts`, `apps/mobile/metro.config.js` and `apps/mobile/lib/supabase.ts` hold configuration and client construction only. They are not part of this model.

## Findings

| source | as written | input that shows it | evidently intended | confidence | as-written member | corrected member |
|---|---|---|---|---|---|---|
| apps/mobile/App.tsx:97-99 | `buildCalendarDays` rebuilds the 1st and the day-0 date with `new Date(getFullYear(), …)`, and that constructor reads a year of 0..99 as 1900..1999 | December 99, which the previous-month arrow reaches from January 100: the grid drawn is December 1999's, with the 1st in the third cell, instead of December 99's, with the 1st in the second | the grid of the month shown | not executed | Calendar.GridAsWrittenShowsOtherYear | Calendar.MonthGrid |
| apps/mobile/App.tsx:859 | the month arrows rebuild the date with `new Date(year, month ± 1, 1)`, and that constructor reads a year of 0..99 as 1900..1999 | January of year 100: one step back shows December 99, the next step back November 1999; from December 99 one step forward shows January 2000 | each arrow moves exactly one month, in any year | not executed | Calendar.ArrowsAsWrittenJump | Calendar.MonthArrowsInverse |
