# Verification of the e-CF issuance engine

This project models three parts of the engine in Dafny and proves what they keep.

**Issuance.** `Documents`, `DbContext`, `Reconciler` and `Issuance` describe the document table, the
submissions, the refresh, the status query and the reconciler as a transition system with a history of what
happened at DGII; `EstadoWords` says what the words in its answers are. Every read, commit, POST and answer
is its own step; a crash, a lost connection or a step of anybody else may come between two of them.
`IssuancePlacement`, `IssuanceSafety`, `IssuanceFreshness`, `IssuanceReturns`, `IssuanceDiscipline`,
`IssuanceOutstanding`, `IssuanceIssuer`, `IssuanceOutcomes`, `IssuanceHonesty`, `IssuanceAnswers`,
`IssuanceRequests`, `IssuanceSeals` and `IssuancePolling` prove what all runs keep and exactly when one
commit keeps it, `IssuanceGuards` reduces their hypotheses to what a writer can check, and `IssuanceLimits`
and `IssuanceLateCommits` show by reachable runs that they cannot be dropped. `DocumentsController` is the
controller's code, with the steps of others in between, proved to be such a run. Around it stand the eNCF
allocator (`EncfText`, `EcfSequences`, `SequenceLedger`), the idempotency store (`Idempotency`,
`IdempotencyRuns`), the leased lock that guards token renewal (`LeaseLock`, `TokenRenewal`, `TokenLife`,
`EcfTokenManager`) and the nonce cache (`NonceCache`).

**Money.** `Money`, `Lines`, `Totals` and `Retention` describe the arithmetic of the canonical builder:
rounding, line normalisation with discount absorption, conversion to pesos with reconciliation of cents,
and the proration of retentions. Amounts are exact reals rounded half away from zero; IEEE doubles are
idealised, so a value such as 1.005 here rounds as written.

**Text.** `Bytes`, `XmlText` and `Utf8` describe XML escaping and UTF-8 truncation on byte strings,
against a decoder of XML references and the syntax of section 4 of RFC 3629.

## Hypotheses

- Submissions of one (tenant, source transaction, environment) are serialised; the indexes of
  db/schema.sql:79-82 alone do not do that, and two concurrent retries of one row could both send. All other
  steps interleave freely.
- A refresh, a status query and a reconciler pass read their rows, ask DGII, and later write the whole rows
  back as they read them, in three or more separate steps; the UPDATE of
  EcfDocumentRepository.cpp:107-125 tests nothing. The send discipline holds nevertheless, because numbers are
  drawn fresh:
  - *fresh*: when a number is drawn, no row, copy, read or transmission of a transaction of the same scope and
    environment carries it. The allocator supplies that for the numbers out (`DrawnTextIsNew`), and a number
    that could not be stored is fresh again (`DrawnNumberReturnsIff`).
  - *at home*: transactions that name one issuer draw from one scope, for instance because each keeps its
    issuer (`SteadyIssuerDiscipline`).

  Other results need more: late commits undo acceptances, shorten polling intervals and lead to two accepted
  numbers (`IssuanceLateCommits`). They name what they need of the commits:
  - *guarded*: the commit leaves each outstanding number in its row and not rejected, and a live submission of
    the row what it needs of it: the number it works on, not outstanding where it is about to be sent or given
    up, and not rejected while it is sent. `CommitIsSafeIff` shows that this is exact for the invariant behind
    `SendDiscipline`, which holds for any numbers and issuers: there the guard replaces freshness and home.
    With neither, a number may go out twice (`RepeatedDrawBreaksDiscipline`).
  - *conditional*: nobody wrote the row since it was read, as an UPDATE with a test of updated_at would
    ensure, and no refresh or status query commits under a submission past its lookup. Both parts are needed
    for acceptances to stay (`LatePassUndoesAcceptance`, `SubmissionBuriesAcceptance`).
  - *rightly asked*: a status query that brings back a rejection asked about the number of its row, or the
    row was never transmitted. Conditional and rightly asked together imply guarded (`CarefulIsGuarded`).
  - *truthful*, for `StoredAcceptanceIsReal`: a status query that brings back an acceptance asked about the
    number of its row.
  - *signed*, for `StoredContentAgrees`: a status query that stores something found a row past the
    never-transmitted states, or one whose content was signed.
- A save commits or changes nothing. Rows without an environment are excluded: the unique indexes do not
  constrain them.
- Where finality is assumed, it is either of acceptances (DGII never denies or rejects a number that it
  accepted) or of rejections (it never accepts a number that it rejected); each result says which. For RFCE
  the code reads every answer that is no acceptance as a rejection.
- Signing is a signature value or a failure, schema validation a yes or no, DGII an arbitrary source of
  answers. `Accepted` in the history is a fact at DGII and may also occur without anybody asking.
- Prefixes have three characters, as all of DGII's do; scopes of a test or certification environment write it
  in the capitals of EcfSequenceManager.cpp:31-34.
- Requests on one idempotency key read and write in separate steps. Results about several holders assume that
  nobody overruns the five-minute lease and that a late reset finds its record and no holder; results about a
  stored success are exact without that: they fail just when a reset decided before the success is written
  after it, which the unconditional UPDATE of DbIdempotencyStore.cpp:84-102 allows
  (`LateResetErasesTheSuccess`).
- Lock values are never drawn twice. Time only moves forward, except where a result says otherwise.

Where the repository's README differs from the code, the code is followed: README.md:235 counts `Received`
and `RequiresManualReview` as never transmitted and README.md:236 promises 202 for a young uncertain row,
while DocumentsController.cpp:37-42 and 436-445 do neither. The raw status text that a status query may
store is kept apart from the engine's own state names.

## Model

| member | source | states |
|---|---|---|
| `IssuanceDiscipline.FreshDrawsDiscipline` | src/Api/Controllers/DocumentsController.cpp:221-579 | in every run of submissions, crashes, failed saves, answers, unconditional late commits and misdirected status queries, between two transmissions of one (issuer, environment, eNCF) DGII answered that the number is unknown or rejected; it needs no guard, only that a number is drawn while no transaction of its scope uses it, and that transactions that name one issuer share a scope |
| `IssuanceDiscipline.SteadyIssuerDiscipline` | src/Infrastructure/Persistence/Repositories/EcfDocumentRepository.cpp:107-125 | in particular for the UPDATE as it is, whenever each transaction keeps its issuer and no fiscal key is drawn while it is in use |
| `IssuanceFreshness.UsedNext` | src/Api/Controllers/DocumentsController.cpp:559-579 | nobody comes to use a number, in a row, a copy, a read or a transmission, but by drawing it |
| `IssuanceReturns.DrawnNumberReturnsIff` | src/Api/Controllers/DocumentsController.cpp:918-949 | a number drawn in such a run, and of which the submission then tried to store the document, is fresh again exactly when the table does not hold it: releasing it after a failed save is sound, whatever others did in between |
| `IssuanceSafety.SendDiscipline` | src/Api/Controllers/DocumentsController.cpp:221-579 | the same with guarded readers instead of fresh numbers, for any numbers drawn and any issuers; stored numbers stay unique |
| `IssuanceSafety.CommitIsSafeIff` | src/Infrastructure/Persistence/Repositories/EcfDocumentRepository.cpp:107-125 | exactly when the whole-row UPDATE of a refresh, status query or pass keeps the invariant, also under live submissions: each row it writes over keeps its outstanding number, in its place and not rejected, and a submission of the row finds what it needs of it |
| `IssuanceGuards.CarefulIsGuarded` | src/Application/Services/EcfStatusReconciler.cpp:36-181 | the guard follows from two checks: an UPDATE conditional on the row being as read, and status queries that ask about the number of their row unless they bring no rejection or the row was never transmitted; with these every run is disciplined |
| `IssuanceSafety.SafeNext` | src/Api/Controllers/DocumentsController.cpp:221-954 | every single step of any writer keeps the invariant behind it, commits of readers if guarded: a number sent since its last releasing answer is held by a row that is neither in a never-transmitted state nor rejected, and a live submission about to post is never one of them |
| `IssuanceSafety.PendingMeaning` | src/Api/Controllers/DocumentsController.cpp:221-417 | the running notion of an outstanding transmission is exactly: some transmission with no releasing answer after it |
| `IssuanceSafety.SafeAfterSaving` | src/Api/Controllers/DocumentsController.cpp:278-279 | a commit, also a failed or refused one, keeps the invariant; the POST can only follow a durable AwaitingTransmission |
| `IssuanceSafety.SafeAfterPosting` | src/Api/Controllers/DocumentsController.cpp:281-378 | so do the POST and every answer to it, a lost one included |
| `IssuanceSafety.SafeAfterAsking` | src/Api/Controllers/DocumentsController.cpp:451-533 | so does the question about an uncertain number, which alone permits to send it again |
| `IssuanceSafety.SafeDispatch` | src/Api/Controllers/DocumentsController.cpp:536-615 | so does every branch on the stored state of an existing row |
| `IssuanceSafety.SafeAfterInserting` | src/Api/Controllers/DocumentsController.cpp:930-952 | so does the insert of a new row and the detour to the winner after a unique violation |
| `IssuanceSafety.SafeRefreshed` | src/Api/Controllers/DocumentsController.cpp:1015-1085 | so does the answer to a refresh in getBySourceTxnId, whatever happened to the row since it was read |
| `IssuanceSafety.SafeQueried` | src/Application/Ecf/EcfHandlers.cpp:97-134 | so does the answer to a status query, about any number, issuer and environment |
| `IssuanceSafety.QueryIsSafeIff` | src/Application/Ecf/EcfHandlers.cpp:82-134 | exactly when a status query on a row that no submission past its lookup holds is safe, for every number, issuer and environment asked: it stores nothing, brings no rejection, asked about the row's number, or the row has no number outstanding |
| `IssuanceSafety.QueryGuard` | src/Application/Ecf/EcfHandlers.cpp:84-134 | what the caller can check beforehand: asked about the row's number, no rejection, or a row that was never transmitted |
| `IssuanceSafety.SafeHear` | src/Application/Services/EcfStatusReconciler.cpp:99-173 | so does every answer that a reconciler pass hears about a row it read |
| `IssuanceSafety.SafeCommitted` | src/Application/Services/EcfStatusReconciler.cpp:175-181 | so does a commit, committed or not, that spares the rows it writes, whatever others wrote since the read |
| `IssuancePlacement.PlacedRun` | src/Api/Controllers/DocumentsController.cpp:536-615 | with conditional updates, whatever the other writers do between their reads and their commits, a submission past its lookup holds an unchanged copy of a row in a state that only submissions may change |
| `IssuanceOutstanding.OneOutstanding` | src/Api/Controllers/DocumentsController.cpp:559-579 | in every guarded run a transaction never has two numbers outstanding at DGII, and the one it has is in its row; no hypothesis on issuers or on the finality of answers |
| `IssuanceOutstanding.AtMostOneAccepted` | src/Api/Controllers/DocumentsController.cpp:559-579 | hence at most one number of a transaction is accepted while outstanding, whatever issuers its requests name, if DGII never denies or rejects what it accepted |
| `IssuanceOutstanding.TwoAcceptedNeedADenial` | src/Api/Controllers/DocumentsController.cpp:476-494 | with final rejections only, two accepted numbers need an answer that one of them is unknown, given after its last transmission |
| `IssuanceIssuer.SteadyIssuerOneAccepted` | src/Api/Controllers/DocumentsController.cpp:559-579 | but also after such an answer there is only one if the issuer stays the same, the updates are conditional and status queries that bring a rejection asked about their row's number |
| `IssuanceLimits.UnmatchedQueryBreaksSingleNumber` | src/Application/Ecf/EcfHandlers.cpp:82-134 | without rightly asked queries it fails, conditional updates or not: a run in which a rejection from another environment leads to two accepted numbers |
| `IssuanceLimits.ChangingIssuerBreaksSingleNumber` | src/Api/Controllers/DocumentsController.cpp:92-108 | without a steady issuer it fails, with conditional updates, no queries and final rejections: DGII says that it does not know the first number and accepts it after all, while a retry under another issuer gets a second one accepted |
| `IssuanceLimits.RepeatedDrawBreaksDiscipline` | src/Application/Ecf/EcfHandlers.cpp:118-133 | without fresh numbers the guard is needed: a run, conditional and with one issuer, in which a rejection from another environment and a second draw of the same number send it twice with no answer about it in between |
| `IssuanceLateCommits.LatePassUndoesAcceptance` | src/Application/Services/EcfStatusReconciler.cpp:175-181 | without conditional updates: a run in which a pass that read a row before a refresh stored its acceptance commits late, and the accepted row waits for a verdict again |
| `IssuanceLateCommits.SubmissionBuriesAcceptance` | src/Api/Controllers/DocumentsController.cpp:378-390 | a test of updated_at alone is not enough: a run in which a refresh stores an acceptance, over a row that nobody wrote since it was read, while the submission lost its answer and then saves Uncertain over it; the send discipline holds in it, acceptance does not stay |
| `IssuanceLateCommits.LatePassBreaksSingleNumber` | src/Infrastructure/Persistence/Repositories/EcfDocumentRepository.cpp:113-118 | and one in which the late commit restores a rejected number over a re-issued row, so that the next retry draws a third one: two numbers outstanding and both accepted, with one issuer, no status query and a DGII that never contradicts itself |
| `IssuanceOutcomes.StoredContentAgrees` | src/Api/Controllers/DocumentsController.cpp:230-281 | in every durable state past signing the stored signature is of the stored XML, the XML was built for the stored number and issuer, and the security code is the first six characters of the signature, also after a re-issue and after late commits |
| `IssuanceOutcomes.QueryKeepsContentIff` | src/Application/Ecf/EcfHandlers.cpp:118-133 | exactly when one status query leaves it so: it stores nothing, or the row was past its never-transmitted states or signed already |
| `IssuanceOutcomes.AcceptedForever` | src/Api/Controllers/DocumentsController.cpp:581-615 | with conditional updates, in every run, an accepted row is never altered again by any writer; no hypothesis on queries or issuers |
| `IssuanceOutcomes.CommitKeepsAcceptedIff` | src/Infrastructure/Persistence/Repositories/EcfDocumentRepository.cpp:107-125 | exactly when one commit, however late, leaves an accepted row accepted under its number: its writer has nothing to write for the row, or heard of an acceptance itself and read the row under that number |
| `IssuanceHonesty.StoredAcceptanceIsReal` | src/Api/Controllers/DocumentsController.cpp:306-363 | a stored acceptance was announced by DGII for exactly that number, also after late commits, if status queries that bring an acceptance asked about their row's number |
| `IssuanceHonesty.QueryIsHonestIff` | src/Application/Ecf/EcfHandlers.cpp:108-133 | exactly when one status query stores an acceptance that DGII announced for the row's number: it asked about that number, or brought no acceptance |
| `IssuanceAnswers.StoredVerdictWasGiven` | src/Api/Controllers/DocumentsController.cpp:281-375 | over every run, without any hypothesis and without the engine's reading of answers: a stored acceptance follows a raw answer for the row's number with codigo 1 or the words 'aceptado' or 'aceptado condicional' up to case and surrounding space, a stored rejection a raw answer that refuses it, and a stored track id was given out for that eNCF; unless a query was misdirected the answer is about that number |
| `IssuanceAnswers.PostIsReadRight` | src/Api/Controllers/DocumentsController.cpp:283-375 | exactly when an answer to a transmission makes the document accepted, or rejected; for a summary: codigo 1 or an accepting text, and anything else |
| `IssuanceAnswers.FoundIsReadRight` | src/Api/Controllers/DocumentsController.cpp:476-514 | exactly when an answer about an uncertain number makes it accepted, rejected, or never received, and where its track id comes from |
| `IssuanceAnswers.RefreshIsReadRight` | src/Api/Controllers/DocumentsController.cpp:1015-1080 | exactly when a refresh stores an acceptance or a rejection: for the five states it asks about, by track id or by number |
| `IssuanceAnswers.PassIsReadRight` | src/Application/Services/EcfStatusReconciler.cpp:99-173 | exactly when a pass finds a verdict: the answer by track id decides, unless it is blank or says that nothing was found; an overdue row gets none |
| `IssuanceAnswers.QueryStoresIff` | src/Application/Ecf/EcfHandlers.cpp:82-134 | exactly when a status query stores something, for every issuer, number and text, and what |
| `IssuanceAnswers.CleanIsExact` | src/Application/Ecf/EcfHandlers.cpp:87-95 | issuers are compared without dashes and spaces, and nothing else is taken out |
| `EstadoWords.ReadMeans` | src/Api/Controllers/DocumentsController.cpp:298-306 | the trimming and lower-casing of an answer amounts to: some core between blanks spells the word, in capitals or not; unknown numbers are told by blank text or two exact spellings |
| `IssuanceRequests.StoredContentIsARequests` | src/Api/Controllers/DocumentsController.cpp:92-110 | over every run, also after re-issues and late commits, edit sequence, issuer, total and XML of a row are all of one request that arrived for its transaction, and the XML is for the number in the row |
| `IssuanceSeals.OnlySealedGoesOut` | src/Api/Controllers/DocumentsController.cpp:230-281 | over every run, nothing goes out for a transaction unless a signature was made for it that passed the schema check, not with the fallback certificate |
| `IssuanceSeals.PostedIsSealed` | src/Api/Controllers/DocumentsController.cpp:230-281 | what is about to go out carries such a signature over its own XML, and the code is its first six characters |
| `IssuancePolling.TerminalForever` | src/Api/Controllers/DocumentsController.cpp:1015-1015 | with conditional updates, a row under manual review, or with a raw status text, is never moved again by submission, refresh or pass, unless a status query for it is under way or comes |
| `IssuancePolling.StatusQueryStrands` | src/Application/Ecf/EcfHandlers.cpp:118-133 | a status query that finds nothing stores the raw text and so strands a never-transmitted row in such a state |
| `IssuancePolling.PolledApart` | src/Infrastructure/Persistence/Repositories/EcfDocumentRepository.cpp:58-72 | with conditional updates, in every run, two committed passes that check the same row are at least the polling interval apart, although both read and commit in separate steps |
| `IssuanceLateCommits.LateRefreshForgetsTheInterval` | src/Api/Controllers/DocumentsController.cpp:1051-1080 | without conditional updates it fails: a run in which a refresh by number that read the row before the first check commits after it, and two passes check the row in the same minute |
| `DocumentsController.Controller.Submit` | src/Api/Controllers/DocumentsController.cpp:897-958 | the code of submit, interrupted at every step by anything that others may do, is a run of the protocol without a crash of its own; it keeps the send discipline if the numbers of the run were fresh and its issuers at home, and also if its readers were guarded; a 200 follows a raw answer for the document's number that accepts it, a document returned as rejected one that refuses it, in every run; with truthful queries a 200 is also a recorded acceptance |
| `DocumentsController.Controller.HandleExisting` | src/Api/Controllers/DocumentsController.cpp:536-615 | its branches on the stored state are those of the protocol; a row in none of the seven states that submissions may change is answered 409, 200 or 202 by edit sequence and state, and nothing changes; a verdict shown was given |
| `DocumentsController.Controller.Reissue` | src/Api/Controllers/DocumentsController.cpp:559-579 | a fresh number is drawn only from a stored rejection, and saved before it is signed; a number handed back is that of the document, the answer is then an exception, and nobody uses it if draws were fresh |
| `DocumentsController.Controller.ReconcileUncertain` | src/Api/Controllers/DocumentsController.cpp:419-534 | a row written less than two minutes ago is answered 409 with nothing asked, sent or stored; otherwise the question to DGII, and either recording its answer or rebuilding and sending again |
| `DocumentsController.Controller.Seal` | src/Api/Controllers/DocumentsController.cpp:230-279 | signing, schema check, refusal of the fallback certificate, and the save before the POST; what ends here was never transmitted and is answered by its state |
| `DocumentsController.Controller.SignAndSend` | src/Api/Controllers/DocumentsController.cpp:221-417 | the status follows the final state of the document, state by state; a 200 means that DGII accepted its number, and whatever verdict it carries was given |
| `DocumentsController.Controller.Post` | src/Api/Controllers/DocumentsController.cpp:281-375 | the POST and its answers; a document leaves accepted only with a recorded acceptance |
| `DocumentsController.Controller.ReadAnswer` | src/Api/Controllers/DocumentsController.cpp:281-375 | what each answer to a transmission makes of the document: a summary is accepted exactly on codigo 1 or an accepting text and rejected otherwise, an e-CF by its immediate verdict or by an error without a track id |
| `DocumentsController.Controller.Learn` | src/Api/Controllers/DocumentsController.cpp:476-533 | what each answer about an uncertain number makes of the document |
| `DocumentsController.Controller.Save` | src/Api/Controllers/DocumentsController.cpp:378-390 | an update is all or nothing, also when it is refused by the unique index |
| `DocumentsController.Controller.SaveDrawn` | src/Api/Controllers/DocumentsController.cpp:571-577 | the save of a re-issued document: its number is stored, or handed back and used by nobody if draws were fresh |
| `DocumentsController.Controller.Insert` | src/Api/Controllers/DocumentsController.cpp:930-949 | the insert of a new row; after any failure its number is handed back, and used by nobody if draws were fresh, and a unique violation leads to the lookup of the winner |
| `DocumentsController.Controller.ReturnWinner` | src/Api/Controllers/DocumentsController.cpp:940-951 | the loser of a race answers with the document of the winner |
| `DocumentsController.Controller.RefreshRow` | src/Api/Controllers/DocumentsController.cpp:1015-1085 | the refresh is read, question and unconditional commit of the protocol with any steps of others in between; it shows an acceptance only if DGII announced it, if the status queries were truthful |
| `DbContext.Context.SaveChanges` | src/Infrastructure/Persistence/DbContext.cpp:17-30 | the staged operations take effect together or not at all, and the queue is empty afterwards either way |
| `DbContext.TransactionKeepsUniqueNumbers` | db/schema.sql:79-82 | no transaction that commits leaves two rows with one (issuer, environment, eNCF) |
| `Reconciler.EcfStatusReconciler.Reconcile` | src/Application/Services/EcfStatusReconciler.cpp:26-184 | the loop stages one update per due row as it was read, with commits of others between any two rows, and writes all of them over whatever the table then holds, or nothing |
| `Reconciler.EcfStatusReconciler.Check` | src/Application/Services/EcfStatusReconciler.cpp:51-169 | what one row of the batch becomes: manual review when its window is over, otherwise the verdict DGII gave |
| `Reconciler.PassOutcome` | src/Application/Services/EcfStatusReconciler.cpp:48-181 | a pass whose rows are still as read moves them only from Signed or SentToDgii to themselves, accepted, rejected or manual review, none checked within the interval; a row of the batch goes to manual review exactly when it was sent the window's hours ago or longer, and when at most 100 rows are due that covers all of them |
| `EcfSequences.EcfSequenceManager.GetNextEncf` | src/Infrastructure/Persistence/EcfSequenceManager.cpp:11-97 | succeeds exactly when a row of the type is active, in force on that day, not used up, and of the scope or of its other spelling with no row of the scope; then yields the next number of that row, and otherwise changes nothing |
| `EcfSequences.DrawSucceedsIff` | src/Infrastructure/Persistence/EcfSequenceManager.cpp:11-97 | that condition, over the table's own columns, and which row and number it is |
| `EcfSequences.AliasIsOtherSpelling` | src/Infrastructure/Persistence/EcfSequenceManager.cpp:24-48 | the four renamings of an environment at the end of a scope, in any capitals; no scope has two |
| `EcfSequences.EcfSequenceManager.ReleaseUnusedEncf` | src/Infrastructure/Persistence/EcfSequenceManager.cpp:100-132 | takes one off exactly the rows of the scope or its bare tenant that stand at the number; a failure changes nothing |
| `EcfSequences.ReleaseHitsIff` | src/Infrastructure/Persistence/EcfSequenceManager.cpp:100-132 | exactly which rows a release takes one off: those at the number, of the type, whose tenant is the scope or the part before its first colon |
| `SequenceLedger.AllocatorIsExact` | src/Infrastructure/Persistence/EcfSequenceManager.cpp:61-132 | for any interleaving of draws and releases, also under both spellings of a scope, the numbers out of each row are exactly the interval from its start, inside the authorised range, and no two holders share a number or its text, while no bare-tenant range exists |
| `SequenceLedger.DrawnInForce` | src/Infrastructure/Persistence/EcfSequenceManager.cpp:66-83 | for any interleaving of draws and releases, every number in a holder's hands came from a row that is active, of the asked type, and expires no earlier than the day of its draw, and somebody asked for it on that day |
| `SequenceLedger.DrawnTextIsNew` | src/Infrastructure/Persistence/EcfSequenceManager.cpp:61-97 | the freshness of draws: after any such interleaving, a draw yields a number not out of its row, and its text differs from that of every number out of any row, but for ranges that were given the same prefix |
| `SequenceLedger.ReleaseIsExactIff` | src/Infrastructure/Persistence/EcfSequenceManager.cpp:115-127 | a release keeps every row's interval exactly when no started range of the bare tenant stands at the same number |
| `SequenceLedger.BareRangeIssuesTwice` | src/Infrastructure/Persistence/EcfSequenceManager.cpp:109-120 | with a range for the bare tenant, four calls make two holders share a number, for every tenant and scope |
| `EncfText.PaddedRoundTrip` | src/Domain/Entities/EcfSequence.h:22-26 | the ten-digit padded text parses back to its number, for every number |
| `EncfText.PaddedIsTenDigits` | src/Domain/Entities/EcfSequence.h:22-26 | up to ten digits the text has exactly ten |
| `EncfText.FormatInjective` | src/Domain/Entities/EcfSequence.h:22-26 | two numbers of one prefix never have the same text |
| `Idempotency.DbIdempotencyStore.ReserveOrGet` | src/Infrastructure/Persistence/DbIdempotencyStore.cpp:44-144 | the branches of reserveOrGet against one specification; a reserved record is blank, new and of the caller's payload |
| `Idempotency.ReservedIff` | src/Infrastructure/Persistence/DbIdempotencyStore.cpp:61-143 | exactly which of the four answers a request gets, over every state of its record: status codes, payload, the state of the document that a stored answer names, and the 300 seconds of a lease |
| `Idempotency.ReservationIsStored` | src/Infrastructure/Persistence/DbIdempotencyStore.cpp:61-143 | a reservation leaves the key under way for the caller, blank and dated now, new records for thirty days, and every other record as it was |
| `Idempotency.FinishIff` | src/Api/Security/IdempotencyHandler.h:65-90 | the end of a request stores its answer exactly for codes 200 to 499 but 401, 403, 408, 409 and 429, and removes the record otherwise |
| `Idempotency.DbIdempotencyStore.CompleteKey` | src/Infrastructure/Persistence/DbIdempotencyStore.cpp:146-164 | completes only a record under way |
| `Idempotency.DbIdempotencyStore.ReleaseKey` | src/Infrastructure/Persistence/DbIdempotencyStore.cpp:166-176 | deletes only a record under way; a failed connection changes nothing |
| `Idempotency.Handle` | src/Api/Security/IdempotencyHandler.h:24-91 | reserve, run, complete or release; the wrapped handler runs exactly when the key was reserved, or no key applies |
| `IdempotencyRuns.MutualExclusion` | src/Infrastructure/Persistence/DbIdempotencyStore.cpp:61-176 | with read and write as separate steps, no key ever has two holders while each stays inside the five-minute lease and every late reset finds its record and no holder |
| `IdempotencyRuns.ExclusiveWriteIff` | src/Infrastructure/Persistence/DbIdempotencyStore.cpp:84-143 | exactly when one delayed write makes a second holder: a reset decided before somebody obtained the key |
| `IdempotencyRuns.OrderlyWriteIff` | src/Infrastructure/Persistence/DbIdempotencyStore.cpp:84-143 | exactly when it leaves every holder with its record: not so for a reset that comes while the key is held or after its record was released |
| `IdempotencyRuns.LostRecordSharesTheKey` | src/Infrastructure/Persistence/DbIdempotencyStore.cpp:84-102 | a reset that comes after the release updates nothing and still reserves, so the next request obtains the key as well, for any keys and requests |
| `IdempotencyRuns.SplitResetsShareTheKey` | src/Infrastructure/Persistence/DbIdempotencyStore.cpp:84-102 | a reset separated from its read does give two holders, inside their leases |
| `IdempotencyRuns.FailureRun` | src/Infrastructure/Persistence/DbIdempotencyStore.cpp:44-164 | the state that this starts from is reached by one failed request |
| `IdempotencyRuns.SettledForever` | src/Infrastructure/Persistence/DbIdempotencyStore.cpp:84-92 | over every run in which the document stands and no reset of the key that was already pending is written, a key with a stored success never changes and never gets a new holder |
| `IdempotencyRuns.StaysSettledIff` | src/Infrastructure/Persistence/DbIdempotencyStore.cpp:84-102 | exactly when a stored success is there in every state of a run: its document stands throughout, and no reset that another request decided before the success is written after it |
| `IdempotencyRuns.SettledWriteIff` | src/Infrastructure/Persistence/DbIdempotencyStore.cpp:84-102 | the same for one write that was decided earlier: the stored success stays unless the write is such a reset |
| `IdempotencyRuns.LateResetErasesTheSuccess` | src/Infrastructure/Persistence/DbIdempotencyStore.cpp:84-102 | the code does not exclude it: a run from an empty store, with everybody in its lease and every reset finding its record and no holder, after which the stored success is blank and its request runs again |
| `IdempotencyRuns.ReplayIsExact` | src/Api/Security/IdempotencyHandler.h:36-62 | in every run from an empty store: after a request ended in a success and while its document stands, in every later state any request with the key and payload gets exactly that response, another payload a mismatch, and the table does not change, if and only if no reset decided before that end is written after it |
| `IdempotencyRuns.FailureFreesTheKey` | src/Api/Security/IdempotencyHandler.h:65-90 | in every run inside the leases, with late resets that find their record and no holder, the end of a request lets the next one with its payload run exactly unless it ended in a success whose document is not rejected |
| `LeaseLock.RedisCacheService.AcquireLock` | src/Infrastructure/Caching/RedisCacheService.cpp:297-306 | succeeds exactly when the lock is free or expired |
| `LeaseLock.RedisCacheService.ReleaseLock` | src/Infrastructure/Caching/RedisCacheService.cpp:322-330 | compare and delete: only the holder's own value is removed |
| `LeaseLock.RedisCacheService.Get` | src/Infrastructure/Caching/RedisCacheService.cpp:221-232 | an expired item is erased and not returned |
| `LeaseLock.RedisCacheService.Set` | src/Infrastructure/Caching/RedisCacheService.cpp:256-268 | the item is replaced, with or without an expiry |
| `LeaseLock.RedisCacheService.Remove` | src/Infrastructure/Caching/RedisCacheService.cpp:270-278 | the item is gone |
| `TokenRenewal.OneRenewal` | src/Infrastructure/Dgii/EcfTokenManager.cpp:169-232 | for any number of calls, managers and processes, no two renew for one issuer and environment while nobody overruns the thirty-second lease |
| `TokenRenewal.LeaseIsKept` | src/Infrastructure/Caching/RedisCacheService.cpp:309-330 | whatever any other call does, a running lease stays with its owner: a release never frees another's lock |
| `TokenRenewal.EveryExitReleases` | src/Infrastructure/Dgii/EcfTokenManager.cpp:114-234 | when a call of getToken is over, by any exit, no lock carries its value |
| `TokenRenewal.OneRenewalPerManager` | src/Infrastructure/Dgii/EcfTokenManager.cpp:213-219 | one manager never renews twice at a time, with or without a cache and whatever the leases |
| `TokenRenewal.NoEmptyToken` | src/Infrastructure/Dgii/EcfTokenManager.cpp:110-235 | no call returns an empty token, whatever the other calls and invalidate do to the manager meanwhile |
| `TokenRenewal.FirstAcquisitionRenewsOnlyIfNeeded` | src/Infrastructure/Dgii/EcfTokenManager.cpp:169-180 | while every token is published inside the lease of its publisher, a call that got the lock at its first try and is in its lease starts a renewal only when no token is cached |
| `TokenRenewal.SecondAcquisitionRenewsAnyway` | src/Infrastructure/Dgii/EcfTokenManager.cpp:195-219 | the second acquisition has no such check: a run with everybody in time in which it renews although a token is cached |
| `TokenRenewal.SecondAcquisitionRenewsIff` | src/Infrastructure/Dgii/EcfTokenManager.cpp:195-219 | exactly when it does so, in every run in time without an invalidation of the site: the token was cached when the lock was won and lives on, and the manager's own memory token is not valid under the mutex |
| `TokenRenewal.EveryCallEnds` | src/Infrastructure/Dgii/EcfTokenManager.cpp:110-235 | each own step brings a call closer to its end, unless it waits for the mutex; thirty-two steps at most |
| `EcfTokenManager.EcfTokenManager.GetToken` | src/Infrastructure/Dgii/EcfTokenManager.cpp:110-235 | the code of getToken, interrupted by others at every step, is a run of that system; every way out releases the lock, and a returned token is not empty and was, at a step of this call, unexpired in the cache of its site or in memory with at least 360,000 milliseconds to live, or this call renewed it |
| `TokenLife.ReturnedTokenIsSourced` | src/Infrastructure/Dgii/EcfTokenManager.cpp:110-235 | that for every call of every run, without the code's own test of the rest of life |
| `TokenLife.RenewsIff` | src/Infrastructure/Dgii/EcfTokenManager.cpp:148-157 | the first look at the memory ends the call exactly on a token with 360,000 milliseconds to live, and a call under the mutex renews exactly without one |
| `TokenLife.PublishedForItsLife` | src/Infrastructure/Dgii/EcfTokenManager.cpp:221-231 | a renewed token is published exactly if a whole second of its life is left, for the whole seconds that are |
| `TokenLife.LockIsWonIff` | src/Infrastructure/Dgii/EcfTokenManager.cpp:168-196 | the lock is won exactly when it is free or run out, for thirty seconds; between the two tries lie twelve looks at the cache |
| `TokenLife.AdoptedTokenOutlivesItself` | src/Infrastructure/Dgii/EcfTokenManager.cpp:139-142 | the recorded rest of life is not the token's own once it came from the cache: a run in which a token with one second to live is taken over for fifty minutes and returned half an hour after its end |
| `TokenLife.AdoptionIsHonestIff` | src/Infrastructure/Dgii/EcfTokenManager.cpp:139-142 | exactly when an adoption does not overstate a life: fifty minutes of it are left |
| `EcfTokenManager.EcfTokenManager.Wait` | src/Infrastructure/Dgii/EcfTokenManager.cpp:181-208 | twelve polls, the second acquisition, the last look |
| `EcfTokenManager.EcfTokenManager.Publish` | src/Infrastructure/Dgii/EcfTokenManager.cpp:221-231 | the token goes to the cache, with its rest of life as expiry, if that is positive; otherwise the cache stays as it is |
| `EcfTokenManager.EcfTokenManager.ForgetToken` | src/Infrastructure/Dgii/EcfTokenManager.cpp:238-249 | clears memory, then cache; a renewal under way blocks both |
| `NonceCache.NonceCache.TryAddNonce` | src/Api/Security/NonceCache.cpp:13-41 | for timestamps in any order, true exactly when both strings have content and no accepted request with the same cache key is unexpired and was never overtaken; on a monotone clock, exactly when none is unexpired in the full history |
| `NonceCache.AcceptsIff` | src/Api/Security/NonceCache.cpp:13-41 | the condition behind it: the pruned cache knows exactly the accepted requests that no later request outran with a timestamp past their expiry |
| `NonceCache.PruningIsInvisible` | src/Api/Security/NonceCache.cpp:23-37 | on a monotone clock the pruned cache answers every request as the unpruned history would |
| `NonceCache.AcceptancesAreSpaced` | src/Api/Security/NonceCache.cpp:32-39 | between two requests with one key that the code accepts, in any order of timestamps, the first expired or was overtaken; on a monotone clock they are more than the first one's time to live apart |
| `NonceCache.OutOfOrderAcceptsAgain` | src/Api/Security/NonceCache.cpp:18-30 | the timestamp is read before the mutex, so a request that was overtaken can accept an active nonce again |
| `NonceCache.SameKeyIff` | src/Api/Security/NonceCache.cpp:18-18 | two requests share a cache key exactly when one key id runs on into the other nonce at a colon |
| `Money.Rounded` | src/Application/Ecf/CanonicalXmlBuilder.cpp:30-32 | rounding gives whole cents, moves a value by half a cent at most, and keeps its sign |
| `Money.FixedIffCents` | src/Application/Ecf/CanonicalXmlBuilder.cpp:30-32 | rounding leaves exactly the whole cents alone |
| `Money.RoundShift` | src/Application/Ecf/CanonicalXmlBuilder.cpp:30-32 | above zero, whole cents can be taken out before rounding |
| `Money.RoundMonotone` | src/Application/Ecf/CanonicalXmlBuilder.cpp:30-32 | rounding never reverses an order |
| `Money.TiesGoAway` | src/Application/Ecf/CanonicalXmlBuilder.cpp:29-35 | half a cent is rounded away from zero, on both sides |
| `Lines.NormalizeCanonicalLines` | src/Application/Ecf/CanonicalXmlBuilder.cpp:339-463 | the one pass with its updates of the last item yields the declared grouping: one item per head, carrying all discount lines up to the next head |
| `Lines.HeadsAreAllHeads` | src/Application/Ecf/CanonicalXmlBuilder.cpp:348-367 | the heads are all and only the lines of value that are no discount, or that nothing of value precedes, in order |
| `Lines.GroupIsDeclared` | src/Application/Ecf/CanonicalXmlBuilder.cpp:349-356 | with cent-exact discount lines an item is the head with amount max(0, own amount − their sum) and discount own discount + their sum |
| `Lines.PrintedAsStated` | src/Application/Ecf/CanonicalXmlBuilder.cpp:343-407 | an item prints what its line states: quantity and discount to half a cent, an amount to five and a half cents, the price to four decimals, or amount over quantity where no price is stated |
| `Lines.PricedAsStated` | src/Application/Ecf/CanonicalXmlBuilder.cpp:358-407 | without an amount the item's is stated price times stated quantity, to five and a half cents |
| `Lines.ReducesAsStated` | src/Application/Ecf/CanonicalXmlBuilder.cpp:343-356 | which lines are discounts, and that they take off their amount, or price times quantity without one |
| `Lines.NormalizedIsPrintable` | src/Application/Ecf/CanonicalXmlBuilder.cpp:388-462 | the result is never empty, numbered from 1, with quantities in cents, indicators 0 to 4 and no negative price, discount or amount |
| `Lines.OwnDiscountBalances` | src/Application/Ecf/CanonicalXmlBuilder.cpp:374-396 | a line that prints its own discount is at most a cent from quantity × price − discount |
| `Lines.UndiscountedBalancesIff` | src/Application/Ecf/CanonicalXmlBuilder.cpp:397-404 | a line without a discount satisfies its arithmetic exactly if and only if its amount came within five cents of it, or did not come at all |
| `Lines.AbsorptionKeepsTheGapIff` | src/Application/Ecf/CanonicalXmlBuilder.cpp:349-356 | absorbing discount lines keeps that distance if and only if the amount covers them |
| `Lines.PrintedLineBalances` | src/Application/Ecf/CanonicalXmlBuilder.cpp:349-407 | both facts for the items that the pass prints |
| `Lines.LeadingDiscountIsCharged` | src/Application/Ecf/CanonicalXmlBuilder.cpp:349-367 | exactly when a discount line opens an item of its own: only zero lines precede it and its amount and price have opposite signs; without a discount of its own the item then charges that value to within five cents |
| `Lines.MinusFiveBecomesAnItem` | src/Application/Ecf/CanonicalXmlBuilder.cpp:349-367 | a discount of five behind a zero line becomes an item of five |
| `Totals.ConvertLines` | src/Application/Ecf/CanonicalXmlBuilder.cpp:788-830 | the conversion loop, line by line, with the indicators that the document type prescribes and peso figures at the document's rate |
| `Totals.ConvertsAtRate` | src/Application/Ecf/CanonicalXmlBuilder.cpp:788-830 | for every printable item and positive rate: the peso price is the foreign one times the rate to 0.00005, the discount to 0.005, the amount max(0, quantity × price − discount) times the rate to 0.01 + 0.00005 per unit; a single undiscounted unit is converted as a whole, to half a cent |
| `Totals.PesoLineIsExact` | src/Application/Ecf/CanonicalXmlBuilder.cpp:799-815 | after conversion every line is exactly max(0, round(quantity × price) − discount), in whole non-negative cents |
| `Totals.ForeignTotals` | src/Application/Ecf/CanonicalXmlBuilder.cpp:970-1176 | for every document type and branch: which bases are printed, and that the printed total is the billed lines plus the printed tax if and only if the difference can be reconciled — always for 43, 44, 46, 47 and per line; by buckets if the difference is zero, or at most 0.10 with some positive base; aggregate if it is at most 0.10 |
| `Totals.BucketsByRate` | src/Application/Ecf/CanonicalXmlBuilder.cpp:1026-1036 | the base of each slot is what the caller declares at 18, 16 and 0 percent, to half a cent a bucket, and it is there exactly when such a bucket is |
| `Totals.BasesAtRate` | src/Application/Ecf/CanonicalXmlBuilder.cpp:1037-1043 | the peso bases before reconciliation are the foreign ones times the rate, to half a cent, in both branches that convert bases |
| `Totals.StatedRatesAreCharged` | src/Application/Ecf/CanonicalXmlBuilder.cpp:425-441 | from the caller's line to the printed tax: the amounts of lines that state 18 percent make up the base taxed with 18 percent, those at 16 percent the other, those at zero are exempt |
| `Totals.ExemptDocumentsPayNoTax` | src/Application/Ecf/CanonicalXmlBuilder.cpp:572-592 | documents of types 43, 44 and 47, notes on minor expenses and documents in which nothing is taxed print all billed lines as exempt, whatever the lines say |
| `Totals.IndicatorOfALine` | src/Application/Ecf/CanonicalXmlBuilder.cpp:755-797 | in an ordinary document a stated indicator stays, and a line that states nothing gets 2 exactly when all tax buckets are at 16 percent and one has a base, and 1 otherwise |
| `Totals.Reconcile` | src/Application/Ecf/CanonicalXmlBuilder.cpp:1050-1057 | the cents go to the first positive base and no other base changes; the bases then add up to the lines under exactly that condition |
| `Totals.ReconcileAggregate` | src/Application/Ecf/CanonicalXmlBuilder.cpp:1066-1076 | the same with the single base of the aggregate branch |
| `Totals.SumPerLine` | src/Application/Ecf/CanonicalXmlBuilder.cpp:1077-1095 | each line goes to the base of its indicator and the running rounded sums lose nothing |
| `Totals.IndicatorsPartition` | src/Application/Ecf/CanonicalXmlBuilder.cpp:1077-1095 | the indicators 1 to 4 share out the billed lines |
| `Totals.SumBilled` | src/Application/Ecf/CanonicalXmlBuilder.cpp:1046-1049 | the running rounded sum of the billed lines is their exact sum |
| `Totals.Finish` | src/Application/Ecf/CanonicalXmlBuilder.cpp:1101-1111 | tax per rate, and a total that is exactly bases plus exempt amount plus tax |
| `Totals.TwoSplitsDiffer` | src/Application/Ecf/CanonicalXmlBuilder.cpp:799-814 | two ways to split one foreign sum into n and s parts differ by at most 0.005·(n+s) in pesos |
| `Totals.BucketDifferenceIsBounded` | src/Application/Ecf/CanonicalXmlBuilder.cpp:1028-1051 | hence n lines of quantity one and s non-empty slots differ by at most 0.005·(n+s) |
| `Totals.TwentyPartsAlwaysReconcile` | src/Application/Ecf/CanonicalXmlBuilder.cpp:1028-1057 | up to n+s = 20 with some positive base the adjustment always reconciles them |
| `Totals.UnitItemsAreUnitLines` | src/Application/Ecf/CanonicalXmlBuilder.cpp:806-808 | which lines these are: quantity one, no discount, no explicit indicator |
| `Retention.Prorate` | src/Application/Ecf/CanonicalXmlBuilder.cpp:1187-1227 | the loop gives every line its part of both taxes in place, in proportion to its amount to half a cent before the last line and to half a cent a line on the last, and changes nothing when one carries a retention of its own |
| `Retention.SharesAreInProportion` | src/Application/Ecf/CanonicalXmlBuilder.cpp:1212-1220 | for any amounts of positive sum: |share × sum − retention × amount| ≤ 0.005 × sum before the last line, and n times that on the last for non-negative ones; nothing before the last line when the sum is not positive |
| `Retention.ProrationConserves` | src/Application/Ecf/CanonicalXmlBuilder.cpp:1201-1225 | a retention in whole cents is never lost and exceeded by at most 0.005·(n−1); it is met exactly if and only if the rounded shares before the last do not exceed it |
| `Retention.ProrationIsClose` | src/Application/Ecf/CanonicalXmlBuilder.cpp:1201-1225 | any non-negative retention is met within half a cent a line |
| `Retention.SharesAreNonNegative` | src/Application/Ecf/CanonicalXmlBuilder.cpp:1212-1220 | no line gets a negative share |
| `Retention.NothingToWeigh` | src/Application/Ecf/CanonicalXmlBuilder.cpp:1221-1224 | when the lines weigh nothing, all of it is left for the last line |
| `Retention.OneCentOverThree` | src/Application/Ecf/CanonicalXmlBuilder.cpp:1212-1220 | one cent over three equal lines goes to the last one |
| `XmlText.EscapeXml` | src/Application/Ecf/CanonicalXmlBuilder.cpp:186-222 | the index loop computes the specified escaping |
| `XmlText.EscapingRoundTrips` | src/Application/Ecf/CanonicalXmlBuilder.cpp:186-222 | for every byte string, an independent decoder of XML references gives back the input without the control bytes that XML 1.0 forbids |
| `XmlText.OutputIsSafe` | src/Application/Ecf/CanonicalXmlBuilder.cpp:191-219 | no raw '<', '>', quote or byte below 0x20 but tab, line feed and carriage return in the output, and every '&' starts one of the eight references |
| `XmlText.StripIsExact` | src/Application/Ecf/CanonicalXmlBuilder.cpp:191-194 | what is taken out before escaping: the bytes below 0x20 that are no tab, line feed or carriage return, each on its own, and nothing else |
| `XmlText.SymbolsAreReferences` | src/Application/Ecf/CanonicalXmlBuilder.cpp:209-217 | copyright, registered and euro signs never appear as such in the output of a text without controls |
| `XmlText.EscapingIsInjective` | src/Application/Ecf/CanonicalXmlBuilder.cpp:186-222 | texts that differ after stripping stay different |
| `Utf8.TruncateUtf8` | src/Application/Ecf/CanonicalXmlBuilder.cpp:224-272 | the loop terminates and computes the specified truncation, for every byte string |
| `Utf8.TruncatedIsAPrefix` | src/Application/Ecf/CanonicalXmlBuilder.cpp:271-271 | the result is a prefix of the input, for every byte string |
| `Utf8.TruncationCountsCharacters` | src/Application/Ecf/CanonicalXmlBuilder.cpp:230-268 | valid UTF-8 stays valid and keeps exactly min(max, characters) characters |
| `Utf8.ValidComposes` | src/Application/Ecf/CanonicalXmlBuilder.cpp:224-272 | on valid UTF-8, truncating twice is truncating once to the smaller count |
| `Utf8.ComposesIff` | src/Application/Ecf/CanonicalXmlBuilder.cpp:252-265 | on any byte string that law holds for all counts if and only if the scan meets no announced character whose bytes do not continue it |
| `Utf8.MalformedExample` | src/Application/Ecf/CanonicalXmlBuilder.cpp:252-265 | three malformed bytes for which it fails |

## Left out

- HTTP, JSON, filters, JWT, configuration, customers: thin input and output.
- Cryptography, XSD validation, certificates and the parsing of DGII's responses: parameters of the model.
- Redis sockets, and the switch between Redis and memory in the middle of a run: one store in one mode.
- The text layout of the XML (element order, buyer branches, dates): only computed values are modelled.
- The totals of documents in pesos, which copy the caller's figures, and the foreign-currency side of the
  totals, which repeats the peso side without the reconciliation.
- The replacement of an E41 retention by the computed tax, and the conversion of retentions to pesos.
- `SendEcfCommandHandler`, `SendRfceCommandHandler` and the Rfce retry loop: another state vocabulary.
- IssuanceSafety.SendDiscipline: here and in `IssuanceDiscipline`, two concurrent submissions of one row are
  excluded by the serialisation hypothesis, because the code has no guard against them.
- Reconciler.PassOutcome: rows are due and aged by whole seconds, and the client cache of the loop is left
  out because it decides no row's outcome.
- DocumentsController.Controller.Submit: the number is a free choice, tied to the allocator by the hypothesis
  that it is fresh.
- DocumentsController.Controller.Insert: a unique violation is a result rather than a matched error text.
- DocumentsController.Controller.ReconcileUncertain: the time stamp of the row is an input of the method and
  not a column of the model, so it is arbitrary in every run.
- IdempotencyRuns.FailureFreesTheKey: outside the leases, or after a late reset that `OrderlyWriteIff`
  describes, another holder may own the record that a request ends.
- EcfSequences.EcfSequenceManager.GetNextEncf: expiry dates are day numbers rather than ISO text, and the
  64-bit width of the numbers is not modelled.
- Idempotency.DbIdempotencyStore.ReserveOrGet: a response body is its text and its document id; that the
  id is found by parsing JSON is not modelled.
- Idempotency.Handle: the answer of the wrapped handler is an input; what it does to other tables and
  exceptions of the store itself are not modelled here.
- EcfTokenManager.EcfTokenManager.GetToken: a call that never obtains the renewal mutex ends as `Blocked`
  instead of waiting for ever; times are milliseconds.
- TokenRenewal.OneRenewal: lock keys and cache keys are one site name, so the spelling of the two keys is
  not modelled.
- Lines.NormalizeCanonicalLines: the descriptions are truncated as in the source, but nothing is proved
  about them here beyond what `Utf8` proves.
