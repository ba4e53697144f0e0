# Banking chat assistant: conversation state machine, modelled in Dafny

This project models the core of a retail-banking demo chat assistant: the
conversation state machine that greets a caller, tells existing customers from
new users, verifies a customer by phone number and ZIP code, answers account
questions (balance, recent transactions, savings products), captures leads for
new users, and forwards questions about an uploaded document to a language
model. The repository keeps eight revisions of the handler side by side, and
each is modelled in its own module, in the form the code has:

| module | file | revision |
|---|---|---|
| `FinalPhase` | `final_phase.dfy` | `FinalPhase.py`: regex intents, three-field lead capture, `ok_exist`/`ok_new`, exit confirmation, one document text |
| `Phase7` | `phase7.dfy` | `Phase7.py`: substring intents, every farewell word asks for confirmation |
| `Phase6` | `phase6.dfy` | `Phase6.py`: no lead capture, a single served step `ok` |
| `Phase5` | `phase5.dfy` | `Phase5.py`: up to three documents, follow-up prompt with an upload tip |
| `Phase4` | `phase4.dfy` | `Phase4.py`: one remembered document path, every verified utterance goes to a `.pdf` |
| `Phase3` | `phase3.dfy` | `Phase3.py`: one document path, document questions gated by keywords |
| `Phase2` | `phase2.dfy` | `Phase2.py`: linear name/phone/e-mail capture, then document questions |
| `Phase1` | `phase1.dfy` | `Phase1.py`: stateless question form with a product recommender |

Shared modules: `Text` (the string operations the handlers use: `lower`,
`strip`, `title`, `in`, `startswith`, `endswith` and the word-boundary search of
the intent regexes), `Backends` (the customer database as maps, the document
extractor, the answer engine as an oracle that answers or fails), `Replies`
(what a reply is) and `Dialogue` (the session shape `FinalPhase` and `Phase7`
share, and the upload handler they both use).

Each stateful revision is modelled twice, on purpose. A pure function `Turn`
(through `Handle` on the stripped and lower-cased utterance) is the
specification of one call of the handler: it returns the reply and the new
session. A `Session` class holds the module globals as fields, and its handler
method performs the same assignments as the source, step by step, with the
postcondition that its reply and new fields are exactly what `Turn` gives.
The properties are then proved as lemmas about `Turn`/`Handle`, and as
invariants (`Valid`) preserved by any sequence of utterances and uploads (`Run`
over `Dialogue.Event`). Python exceptions are modelled as explicit outcomes:
a missing dictionary key, a `fetchone()` that returns nothing, a document that
cannot be opened and a failing answer engine each lead to the `except` branch
of the revision (or, where there is none, to a `Crashed`/`Raised` result).

In these places the code behaves differently from what its prompts and names
suggest; the model follows the code:
- In `FinalPhase.py` the words `bye`, `thanks` and `thank you` end the session at
  once; only `exit`, `quit` and `leave` ask for confirmation.
- A bare `yes` is tested after the savings keyword, not before the topics. In
  `FinalPhase.py` and `Phase7.py` it must be exactly `yes`.
- The customer id and names are stored at the phone step, before the ZIP is checked.
- The e-mail address of a lead is read but never stored, and `state.clear()`
  drops the captured phone (`FinalPhase.py:103-109`).
- The exception handlers of `Phase3.py` and `Phase5.py` clear `user_state` only:
  the uploaded path or files survive. `Phase2.py` and `Phase1.py` catch nothing.
- A document that cannot be opened makes `upload` raise (it is outside the
  `try`), so the previous document text stays in place.

## Model

| member | source | states |
|---|---|---|
| Backends.FindByPhone | FinalPhase.py:113-115 | the phone query finds a row exactly when the phone is indexed and its id has a customer row, and then returns that row's id and names |
| Backends.RecentTransactions | FinalPhase.py:150-154 | at most five rows, none for a customer without history, otherwise the newest prefix of the customer's history (all of it when shorter than five) |
| Backends.TextPages | FinalPhase.py:33-37 | only pages that yield text are kept, never more than there are pages |
| Backends.ExtractedTextIsBoundedPrefix | FinalPhase.py:38 | the extracted text is at most 8000 characters, a prefix of the newline-joined page texts, and all of them when they fit |
| Backends.NoTextNoExtract | FinalPhase.py:31-38 | a document whose pages yield no text extracts to the empty string |
| Backends.Extract | FinalPhase.py:31-38 | the extraction loop returns the newline-joined texts of the non-empty pages cut to 8000 characters |
| Backends.ExtractAll | Phase2.py:29-36 | the extraction loop of the early revisions returns the concatenation of all page texts |
| Backends.ConcatIsUnseparatedJoin | Phase2.py:29-36 | the early extraction is the later one without separators and truncation: the same pages, in the same order |
| Dialogue.AttachContract | FinalPhase.py:198-204 | no path or an empty one clears the document text silently; an unopenable path raises and keeps the old text; otherwise the text becomes the extraction of that file, within 8000 characters |
| FinalPhase.LooksLikeExisting | FinalPhase.py:57-61 | true exactly when some word starts with `exist`, `current`, `old` or `return`, case-insensitively |
| FinalPhase.LooksLikeNew | FinalPhase.py:58-64 | true exactly when some word starts with `new`, `sign`, `open` or `join`, case-insensitively |
| FinalPhase.StartAlwaysAdvances | FinalPhase.py:76-80 | from `start` any utterance moves to `type` and changes nothing else |
| FinalPhase.TypeChoicePriority | FinalPhase.py:83-90 | in `type` the existing-customer test wins over the new-user test; with neither the session is unchanged |
| FinalPhase.ExistingBeatsNew | FinalPhase.py:84-89 | "new or existing" is routed to phone verification |
| FinalPhase.NewAlsoMatches | FinalPhase.py:58-64 | the new-user test also matches "new or existing", so the order of the tests decides |
| FinalPhase.LeadCapture | FinalPhase.py:93-109 | name, phone and e-mail in three turns reach `ok_new` with a state holding only the step, and thank the user by the title-cased name |
| FinalPhase.PhoneStep | FinalPhase.py:112-118 | an unknown phone changes nothing; a known one records the customer's id and names and asks for the ZIP |
| FinalPhase.ZipStep | FinalPhase.py:121-127 | a wrong ZIP changes nothing, however often; the customer's ZIP moves to `ok_exist` and greets by first name |
| FinalPhase.AccountRepliesNeedVerifiedCustomer | FinalPhase.py:143-159 | balance and transaction replies come only from `ok_exist` |
| FinalPhase.ServeGatesAccounts | FinalPhase.py:143-159 | in `ok_new` no utterance yields a balance or transaction reply |
| FinalPhase.AccountReplies | FinalPhase.py:143-159 | in `ok_exist` a balance request reports the stored balance and a transaction request the recent transactions, "none" exactly when there are none |
| FinalPhase.NewUserFallsThrough | FinalPhase.py:161-173 | in `ok_new` account words fall through to savings, the link, the document answer or the fallback; only a failing engine resets |
| FinalPhase.ExitWords | FinalPhase.py:131-138 | exactly `exit`, `quit` or `leave` asks for confirmation; exactly `bye`, `thanks` or `thank you` resets at once, document included |
| FinalPhase.ConfirmExitResolves | FinalPhase.py:175-182 | a reply starting with `y` closes the session and drops the document; any other returns to `ok_exist` exactly when a customer id is held |
| FinalPhase.DeclinedExitRestores | FinalPhase.py:130-182 | `exit` followed by a declining reply restores exactly the session before |
| FinalPhase.ResetsAreComplete | FinalPhase.py:184-194 | the unknown-step branch and every caught exception leave only `start` and no document; every other turn keeps the document or returns to the fresh session (the farewell words and a confirmed exit do) |
| FinalPhase.ServeResetsCompletely | FinalPhase.py:130-173 | in the served states an error or a farewell leaves the fresh session; any other reply keeps the document |
| FinalPhase.HandleKeepsValid | FinalPhase.py:68-194 | every turn keeps the session invariant: a known step, the keys each step reads, an existing customer id, bounded document text |
| FinalPhase.ServeKeepsValid | FinalPhase.py:130-173 | the main actions keep the invariant, and raise only when the answer engine fails on a held document |
| FinalPhase.ApplyKeepsValid | FinalPhase.py:68-204 | a turn or an upload keeps the invariant |
| FinalPhase.RunKeepsValid | FinalPhase.py:68-204 | any sequence of turns and uploads keeps the invariant |
| FinalPhase.OnlyTheEngineRaises | FinalPhase.py:74-194 | in a valid session the unknown-step branch is unreachable and the only exception is a failing answer engine |
| FinalPhase.DialogueStepsSucceed | FinalPhase.py:76-127 | in a valid session the steps before the main actions never reset |
| FinalPhase.UploadsNeverTouchState | FinalPhase.py:198-204 | any number of uploads leaves the dialogue state unchanged |
| FinalPhase.Session.constructor | FinalPhase.py:21-22 | the globals start at `{step: start}` and no document |
| FinalPhase.Session.Recover | FinalPhase.py:189-194 | the exception handler clears the state and the document |
| FinalPhase.Session.Chat | FinalPhase.py:68-194 | the handler's reply and new globals are exactly those of `Turn` |
| FinalPhase.Session.MainActions | FinalPhase.py:130-173 | the main-actions block's reply and new globals are exactly those of `Serve` |
| FinalPhase.Session.Upload | FinalPhase.py:198-204 | `upload` writes the document text only, as `Attach` says |
| Phase7.StartAlwaysAdvances | Phase7.py:60-63 | from `start` any utterance moves to `type` |
| Phase7.TypeChoicePriority | Phase7.py:66-73 | the substring `existing` is tested before `new`; with neither the session is unchanged |
| Phase7.SubstringPriorityExample | Phase7.py:66-72 | "new, not existing" goes to phone verification |
| Phase7.LeadCapture | Phase7.py:76-91 | three turns capture the name as typed and the phone, reach `ok_new` with only the step, and thank the user by that name |
| Phase7.FarewellsAskFirst | Phase7.py:115-163 | every farewell word asks for confirmation; in a valid served session only a failing engine resets |
| Phase7.AccountRepliesNeedVerifiedCustomer | Phase7.py:127-145 | balance and transaction replies come only from `ok_exist` |
| Phase7.ServeGatesAccounts | Phase7.py:127-145 | in `ok_new` no utterance yields a balance or transaction reply |
| Phase7.AccountReplies | Phase7.py:128-145 | in `ok_exist` a balance request reports the stored balance and a transaction request the recent transactions |
| Phase7.ConfirmExitResolves | Phase7.py:166-171 | a `y` reply closes the session; any other returns to `ok_exist` exactly when a customer id is held |
| Phase7.DeclinedExitRestores | Phase7.py:115-171 | a farewell word followed by a declining reply restores exactly the session before |
| Phase7.ResetsAreComplete | Phase7.py:173-180 | the unknown-step branch and every exception leave only `start` and no document |
| Phase7.ServeResetsCompletely | Phase7.py:115-163 | in the served states an exception resets completely, and nothing else leaves the fresh session; otherwise the document is kept |
| Phase7.HandleKeepsValid | Phase7.py:53-180 | every turn keeps the session invariant, and the unknown-step branch is unreachable |
| Phase7.ServeKeepsValid | Phase7.py:115-163 | the main actions keep the invariant and raise only on a failing engine |
| Phase7.ApplyKeepsValid | Phase7.py:53-190 | a turn or an upload keeps the invariant |
| Phase7.RunKeepsValid | Phase7.py:53-190 | any sequence of turns and uploads keeps the invariant |
| Phase7.UploadsNeverTouchState | Phase7.py:183-190 | any number of uploads leaves the dialogue state unchanged |
| Phase7.Session.constructor | Phase7.py:21-22 | the globals start at `{step: start}` and no document |
| Phase7.Session.Recover | Phase7.py:177-180 | the exception handler clears the state and the document |
| Phase7.Session.Chat | Phase7.py:53-180 | the handler's reply and new globals are exactly those of `Turn` |
| Phase7.Session.MainActions | Phase7.py:115-163 | the main-actions block's reply and new globals are exactly those of `Serve` |
| Phase7.Session.Upload | Phase7.py:183-190 | `upload` writes the document text only, as `Attach` says |
| Phase6.StartAlwaysAdvances | Phase6.py:65-69 | from `start` any utterance moves to `type` |
| Phase6.NewUserIsNotCaptured | Phase6.py:72-83 | `existing` goes to phone verification; otherwise `new` thanks the user and returns to `start` with nothing captured; otherwise nothing changes |
| Phase6.OnlyZipMatchEntersOk | Phase6.py:100-112 | outside the served steps, `ok` is entered only from `zip` with the customer's exact ZIP; a wrong ZIP changes nothing |
| Phase6.ServeOrder | Phase6.py:115-178 | in `ok` the first matching test decides: farewell, `upload`, balance, transactions, savings, `yes`, document, fallback, with the verified customer's data |
| Phase6.ConfirmExitResolves | Phase6.py:181-188 | a `y` reply clears everything; any other returns to exactly `ok` |
| Phase6.DeclinedExitRestores | Phase6.py:115-188 | a farewell word followed by a declining reply restores exactly the session before |
| Phase6.ResetsAreComplete | Phase6.py:181-199 | the unknown-step branch and every exception leave only `start` and no document; every other turn keeps the document or returns to the fresh session (a confirmed exit does) |
| Phase6.ServeResetsCompletely | Phase6.py:115-178 | in `ok` an exception resets completely, and nothing else leaves the fresh session; otherwise the document is kept |
| Phase6.HandleKeepsValid | Phase6.py:57-199 | every turn keeps the session invariant; the unknown step is unreachable and only a failing engine raises |
| Phase6.ServeKeepsValid | Phase6.py:115-178 | the main actions keep the invariant and raise only on a failing engine |
| Phase6.ApplyKeepsValid | Phase6.py:57-209 | a turn or an upload keeps the invariant |
| Phase6.RunKeepsValid | Phase6.py:57-209 | any sequence of events keeps the invariant, which gives every `ok` session an existing customer id |
| Phase6.Session.constructor | Phase6.py:21-22 | the globals start at `{step: start}` and no document |
| Phase6.Session.Recover | Phase6.py:195-199 | the exception handler clears the state and the document |
| Phase6.Session.Chat | Phase6.py:57-199 | the handler's reply and new globals are exactly those of `Turn` |
| Phase6.Session.MainActions | Phase6.py:115-178 | the `ok` block's reply and new globals are exactly those of `Serve` |
| Phase6.Session.Upload | Phase6.py:202-209 | `upload` writes the document text only, as `Attach` says |
| Phase5.Chunks | Phase5.py:203 | the per-file texts exist exactly when every file can be opened, one per file, in order, each the extraction of that file |
| Phase5.BuildContext | Phase5.py:201-205 | the context loop returns the blank-line-joined texts of all files, and fails exactly when some file cannot be opened |
| Phase5.NewUserFlow | Phase5.py:99-111 | name then e-mail thank the user by the name and return to `start`, files kept |
| Phase5.MissingNameDefaultsToEmpty | Phase5.py:104-111 | `new_email` without a stored name thanks an empty name instead of failing |
| Phase5.VerifiedOrder | Phase5.py:149-214 | in `verified` the first matching test decides: `upload`, balance, transactions, savings, the yes-set, a document question when files exist, a farewell word, the fallback |
| Phase5.DocumentQuestion | Phase5.py:201-206 | a document question is answered from all files' texts joined by blank lines; an unopenable file or a failing engine resets |
| Phase5.NoFilesNoEngine | Phase5.py:201-206 | without files no reply is a document answer |
| Phase5.TipIffRoom | Phase5.py:56-64 | every follow-up prompt carries the upload tip exactly when fewer than three files are held |
| Phase5.TurnsKeepFiles | Phase5.py:208-223 | no turn changes the file list; farewell, unknown step and exception clear the state only |
| Phase5.AddFileContract | Phase5.py:227-234 | no path changes nothing; a full list rejects the file; otherwise the path is appended; the capacity is never exceeded |
| Phase5.HandleKeepsValid | Phase5.py:68-223 | every turn keeps the session invariant and never reaches the unknown-step branch |
| Phase5.ApplyKeepsValid | Phase5.py:68-234 | a turn or an upload keeps the invariant and only appends to the file list |
| Phase5.RunKeepsFiles | Phase5.py:21-234 | over any events the file list only grows by appending, never beyond three, and the session stays valid |
| Phase5.Session.constructor | Phase5.py:21-22 | the globals start at `{step: start}` and no files |
| Phase5.Session.Recover | Phase5.py:220-223 | the exception handler clears `user_state` only |
| Phase5.Session.Bot | Phase5.py:68-223 | the handler's reply and new globals are exactly those of `Turn` |
| Phase5.Session.MainActions | Phase5.py:151-214 | the `verified` block's reply and new state are exactly those of `Serve` |
| Phase5.Session.HandleUpload | Phase5.py:227-234 | the upload handler changes the file list as `AddFile` says |
| Phase4.NewUserFlow | Phase4.py:84-93 | the name is stored title-cased, the user is thanked by it and the session returns to `start` |
| Phase4.ZipStep | Phase4.py:104-113 | verification succeeds exactly when a customer row has the session's id and that ZIP; otherwise nothing changes |
| Phase4.YesAfterSavings | Phase4.py:139-145 | the savings test comes before the yes-set |
| Phase4.PdfCapturesEverything | Phase4.py:147-160 | with a `.pdf` path every remaining verified utterance goes to the engine, so no farewell is reachable |
| Phase4.FarewellWithoutPdf | Phase4.py:147-163 | without a `.pdf` path a farewell word ends the session and forgets the path; anything else gets the fallback |
| Phase4.ResetsForgetPath | Phase4.py:157-172 | farewell, unknown step and exception clear the state and the path; no other turn writes the path |
| Phase4.RememberContract | Phase4.py:176-182 | `None` keeps the stored path; any other value replaces it |
| Phase4.HandleKeepsValid | Phase4.py:55-172 | every turn keeps the session invariant; only the document branch raises |
| Phase4.ApplyKeepsValid | Phase4.py:55-182 | a turn or an upload keeps the invariant |
| Phase4.RunKeepsValid | Phase4.py:55-182 | any sequence of events keeps the invariant |
| Phase4.Session.constructor | Phase4.py:18-19 | the globals start at `{step: start}` and no path |
| Phase4.Session.Recover | Phase4.py:169-172 | the exception handler clears the state and the path |
| Phase4.Session.Bot | Phase4.py:55-172 | the handler's reply and new globals are exactly those of `Turn` |
| Phase4.Session.MainActions | Phase4.py:118-163 | the `verified` block's reply and new globals are exactly those of `Serve` |
| Phase4.Session.HandleUpload | Phase4.py:176-182 | the upload handler changes the path as `Remember` says |
| Phase3.NewUserFlow | Phase3.py:72-84 | the name is stored as typed, the user is thanked by it and the session returns to `start` |
| Phase3.DocumentGate | Phase3.py:165-183 | the engine is asked exactly when the path ends in `.pdf` and a question keyword occurs; otherwise farewell or fallback |
| Phase3.ThanksEndsDespitePdf | Phase3.py:165-177 | "thanks" with a `.pdf` path ends the session, and the path survives |
| Phase3.TurnsKeepPath | Phase3.py:174-194 | no turn writes the path; every reset clears the state only |
| Phase3.UploadOverwrites | Phase3.py:197-201 | an upload replaces the path with whatever it is given, `None` included |
| Phase3.HandleKeepsValid | Phase3.py:44-194 | every turn keeps the session invariant; only the document question raises |
| Phase3.ApplyKeepsValid | Phase3.py:44-201 | a turn or an upload keeps the invariant |
| Phase3.RunKeepsValid | Phase3.py:44-201 | any sequence of events keeps the invariant |
| Phase3.Session.constructor | Phase3.py:13-14 | the globals start at `{step: start}` and no path |
| Phase3.Session.Recover | Phase3.py:190-194 | the exception handler clears `user_state` only |
| Phase3.Session.Bot | Phase3.py:44-194 | the handler's reply and new `user_state` are exactly those of `Turn` |
| Phase3.Session.MainActions | Phase3.py:124-183 | the `verified` block's reply and new `user_state` are exactly those of `Serve` |
| Phase3.Session.HandleUpload | Phase3.py:197-201 | the upload handler stores its argument as the path |
| Phase2.FirstMissing | Phase2.py:63-74 | the next field to fill is the first of name, phone, e-mail still missing, and there is none exactly when all three are set |
| Phase2.Upload | Phase2.py:89-92 | an upload changes the file and nothing else |
| Phase2.FillsFirstMissing | Phase2.py:63-74 | before completion a call fills exactly the first missing field with the message and leaves the others |
| Phase2.CompletesOnlyWithEmail | Phase2.py:72-78 | `completed` turns true only on the call that stores the e-mail after name and phone, and that call saves exactly that lead |
| Phase2.NeverOverwritten | Phase2.py:63-86 | a set field keeps its value, a completed session is unchanged, the file is untouched, saved leads are kept |
| Phase2.AnswerIffFile | Phase2.py:80-86 | after completion the reply asks for a document exactly when none is set, is the engine's answer when the file reads and the engine answers, and fails exactly otherwise |
| Phase2.UploadThenAsk | Phase2.py:81-92 | a question after uploading a readable file gets the engine's answer on it |
| Phase2.FreshIsValid | Phase2.py:52-57 | the initial `user_info` satisfies the invariant |
| Phase2.TurnKeepsValid | Phase2.py:60-86 | every call keeps the invariant: fields set in order, completed exactly when the e-mail is set, exactly one lead saved once completed |
| Phase2.ApplyKeepsValid | Phase2.py:60-92 | a call or an upload keeps the invariant |
| Phase2.RunKeepsValid | Phase2.py:60-92 | over any events the invariant holds and at most one lead is saved |
| Phase2.RunNeverOverwrites | Phase2.py:60-92 | over any events a set field keeps its value and completion is never undone |
| Phase2.Session.constructor | Phase2.py:52-57 | the globals start empty with no file |
| Phase2.Session.SaveCustomerInfo | Phase2.py:19-26 | one lead row is appended to the table |
| Phase2.Session.Chatbot | Phase2.py:60-86 | the handler's reply and new globals are exactly those of `Turn` |
| Phase2.Session.UploadFile | Phase2.py:89-92 | the upload handler stores its argument as the file and changes nothing else |
| Phase1.Recommend | Phase1.py:41-50 | a recommendation is never the empty string |
| Phase1.FirstMatch | Phase1.py:41-50 | the first rule whose keyword occurs decides; none exactly when no keyword occurs |
| Phase1.RecommendationIsFirstMatch | Phase1.py:38-50 | the recommender is the first match of the ordered rule table: credit card, loan, investment, savings account |
| Phase1.HighestPriorityWins | Phase1.py:39-48 | a product is recommended exactly when its keyword occurs in the lower-cased question and no earlier keyword does |
| Phase1.LoanBeforeInvestment | Phase1.py:41-46 | "loan or investment" gets the loan recommendation only |
| Phase1.GuardSkipsEngine | Phase1.py:53-55 | with no file or a blank question the reply is the fixed request, whatever the engine does |
| Phase1.AnswerThenRecommendation | Phase1.py:57-71 | the reply starts with the engine's answer, equals it exactly when no product is named, and otherwise adds a blank line and the recommendation |
| Phase1.RaisesOnlyOnBackends | Phase1.py:53-61 | the handler fails exactly when a file and a question are given and the file cannot be read or the engine fails |

## Left out

- `Phase8.py` (builds a slide deck through a presentation library) and `create_db.py` (seeds the database) are not part of this model.
- The user interface (Gradio layouts, `launch`), environment loading, logging with `print`, and the model parameters of the language-model call.
- Reply wording: a reply is modelled as its kind plus the data it reports (`Replies.Msg`); currency formatting of balances and amounts (floating point) is not modelled. The follow-up text of `again()` is the prompt `Again`, and that of `follow_up()` in `Phase5.py` is `FollowUp(tip)`.
- The language model is an arbitrary fixed function from (question, context) to an answer or a failure; nothing is assumed about its answers.
- The database is a value: SQL errors (a missing table or a locked file) are not modelled, and the row order of `ORDER BY date DESC` is the order of the stored history.
- A phone number maps to one customer id, so duplicate phone rows cannot be represented.
- Documents are a map from path to page texts; PDF parsing itself is not modelled.
- The status text of an upload names the file by its path; `os.path.basename` is not modelled.
- Case mapping and `\w` are ASCII; whitespace is Python's full `isspace` set. Python's Unicode tables for `lower`, `title` and `\w` are not modelled.
- Sessions are process-wide globals, as in the source; several concurrent users sharing them are not modelled.
- The lead inserted by `Phase2.py` is appended to a sequence of rows; the SQLite write itself is not modelled.
- `Phase1.Chatbot` takes the uploaded document's path; the `file.name` attribute access of `Phase1.py:17` is not modelled.
- `Phase3.py` and `Phase5.py` register the upload callback with no input component (`Phase3.py:216`, `Phase5.py:252`), so as deployed it is called without the path; `Phase3.Session.HandleUpload` and `Phase5.Session.HandleUpload` model the callback as if it received the path.
