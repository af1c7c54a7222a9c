# Membership dues ledger and organisation rules — a Dafny model

This project models the business rules of an organisation's membership
back end. Its centre is the dues ledger:

- **Cash periods.** A finance officer defines billing cycles, each with an amount, a due date and a late fee per day.
- **Cash transactions.** A member submits one payment per period, CASH or TRANSFER. A TRANSFER needs a proof image. A CASH payment is COMPLETE at once; a TRANSFER stays PENDING until it is verified as COMPLETE or REJECTED.
- **The save hook.** The transaction model recomputes the fine from the period before every save.
- **Period statistics.** Counts of paid, pending and unpaid members, and totals of money collected and fines.

Around the ledger, the model covers:

- the `checkPermission` middleware;
- the document access tiers;
- the validation of a bulk user CSV, and the user create, update and bulk-import handlers;
- the division handlers, with their guard that refuses to delete a division that still has members;
- the work-program handlers, authorised for an ADMIN or the DIRECTOR of the program's division;
- the article status and publish-date rules.

There is one Dafny module per source file:

- `Common`: JavaScript truthiness, results and errors, ASCII case mapping.
- `LateFee`: the two late-fee rules.
- `CashTransactionModel`: transaction defaults, the `proofRequired` validator and the `beforeSave` hook.
- `CashLedger`: the cash controller.
- `Documents`, `Permissions`, `CsvValidation`, `Users`, `Divisions`, `WorkPrograms` and `Articles`: the remaining controllers and the middleware.

Handlers that change stored records are methods of a class whose fields are the tables:

- `Ledger`: periods, and transactions in insertion order;
- `DocumentStore`, `UserDirectory`, `DivisionStore`, `WorkProgramStore` and `ArticleStore`: maps from ids to records.

Each method states its error cases in the handler's own order, and that a failure leaves the tables unchanged. It also states the exact new table on success and keeps the class invariant `Valid()`. Examples of that invariant:

- at most one PENDING or COMPLETE transaction per member and period;
- unique user e-mails;
- every published article has a publish date.

Pure rules are functions, with lemmas that relate them. Examples:

- the ceiling rule and the floor rule for late fees;
- the e-mail duplicate filter against multiset counts;
- the CSV error list against per-row validity;
- the publish action against an update that sends PUBLISHED.

Conventions:

- Dates are integer milliseconds.
- An absent request field is `None`.
- JavaScript truthiness is written out: `""`, `0` and `null` are falsy.
- Multipart form fields and query-string values are strings, so any given value is truthy, `"0"` included. Such a field is an `Option` that is `None` when absent or empty, and the model tests it with `Some?`. A date always arrives as a non-empty string, so a given date is truthy.
- A field the code tests with `!== undefined` is `None` only when absent: an empty value is `Some("")`. These are the `is_active` query of `getAllPeriods` (src/controllers/cashController.js:30) and the rate and active flag of `updatePeriod` (lines 102 and 104). In the JSON body of `updatePeriod`, a `null` for those two is `Some(None)`.
- Only a failure of Sequelize's own validation answers 400 `BadRequest(ValidationError)` (src/middlewares/errorHandler.js:19-28). In the core these are the `proofRequired` validator and the not-null check of `late_fee_per_day`.
- The database's own refusals answer 500 `DatabaseError`: a value outside an ENUM column, or a foreign key naming a missing row (src/middlewares/errorHandler.js:58-62).

Rules of the code worth knowing:

- **Late fees.** Submission computes the late fee with a ceiling of the days late (src/controllers/cashController.js:14-17). The save hook then overwrites it on every save with a floor (src/models/CashTransaction.js:71-73). The stored fine is therefore always the floor rule's value (`BeforeSaveDiscardsIncomingFine`, `CeilingExceedsFloor`).
- **Unpaid count.** `unpaid_count` is the user count minus the paid and pending counts (src/controllers/cashController.js:394). It is never negative while every payer is among the counted users (`UnpaidNonNegative`).
- **Period field names.** The Swagger comments list period fields `title`, `start_date` and `end_date` (src/routes/swaggerDocs.js:693,734). The controller reads `name`, `amount` and `due_date`, and the model follows the controller.
- **Work-program slug.** The work-program write routes require the slug `workprograms.manage` (src/routes/workProgramRoutes.js:20-22). The role seeder defines `work_programs.manage` (src/seeders/03-roles.js:14). While roles carry only seeded slugs, these routes admit exactly the ADMINs (`WorkProgramRoutesAdminOnly`). A DIRECTOR therefore never reaches the handler's own division check. The model of the handlers keeps that check as written.

## Model

| member | source | states |
|---|---|---|
| Common.ToLowerIdempotent | src/controllers/userController.js:261 | lower-casing twice equals lower-casing once, so stored lower-cased e-mails compare equal to their lower-cased form |
| LateFee.CeilDays | src/controllers/cashController.js:14-15 | the days late rounded up: the smallest d with diff <= d days, and at least 1 |
| LateFee.FloorDays | src/models/CashTransaction.js:71 | the whole days late: the largest d with d days <= diff |
| LateFee.CalculateLateFee | src/controllers/cashController.js:8-18 | no fee when paid on or before the due date |
| LateFee.HookFine | src/models/CashTransaction.js:70-76 | no fine when paid on or before the due date |
| LateFee.CalculateLateFeeCharges | src/controllers/cashController.js:12-17 | a payment late by more than k-1 and at most k days is charged exactly k days |
| LateFee.HookFineCharges | src/models/CashTransaction.js:70-73 | a payment late by at least k and under k+1 days is fined exactly k days |
| LateFee.CeilingExceedsFloor | src/controllers/cashController.js:14-17 | the submission fee equals the hook's fine for a whole number of days late, and exceeds it by exactly one day's fee otherwise |
| LateFee.UnderOneDayLate | src/models/CashTransaction.js:70-73 | under one day late: submission computes one day's fee, the hook none |
| LateFee.FeesMonotone | src/controllers/cashController.js:8-18 | with a non-negative rate, paying later never lowers either fee |
| CashTransactionModel.BeforeSave | src/models/CashTransaction.js:62-79 | only the fine changes; with a period id, a payment date and the period found, it becomes the floor rule against that period's due date and rate; otherwise the record is unchanged |
| CashTransactionModel.BeforeSaveIdempotent | src/models/CashTransaction.js:62-79 | saving twice against the same periods gives the same record as saving once |
| CashTransactionModel.BeforeSaveDiscardsIncomingFine | src/models/CashTransaction.js:65-76 | when the period is found, the stored fine does not depend on the fine the record carried in |
| CashTransactionModel.BeforeSaveFine | src/models/CashTransaction.js:65-77 | the stored fine is 0 on time and under one day late, and otherwise whole days late times the rate |
| CashLedger.ParseMethod | src/models/CashTransaction.js:36-40 | a string is accepted exactly when it is CASH or TRANSFER, and read back unchanged |
| CashLedger.MethodRoundTrip | src/models/CashTransaction.js:36-40 | storing a payment method and reading it back gives it unchanged |
| CashLedger.CountStatus | src/controllers/cashController.js:366-378 | a status count never exceeds the number of transactions |
| CashLedger.NoCompleteNoTotals | src/controllers/cashController.js:380-392 | without COMPLETE transactions, total collected and total fines are both 0 |
| CashLedger.LiveUsersMembership | src/controllers/cashController.js:203-209 | a user is among the live users of a period exactly when they hold a PENDING or COMPLETE transaction for it |
| CashLedger.LiveCountIsUserCount | src/controllers/cashController.js:203-213 | under the one-live-transaction rule, paid plus pending counts distinct users |
| CashLedger.LiveUsersArePayers | src/controllers/cashController.js:223-224 | every live user of a period is the payer of a stored transaction |
| CashLedger.UnpaidNonNegative | src/controllers/cashController.js:394 | when every payer is a counted user, `unpaid_count` is never negative |
| CashLedger.CountsBounded | src/controllers/cashController.js:366-378 | paid plus pending never exceeds the number of transactions |
| CashLedger.RejectionReopensSubmission | src/controllers/cashController.js:203-212 | rejecting a live transaction leaves its member and period with none, so the member may submit again |
| CashLedger.VerificationCanChangeFine | src/controllers/cashController.js:318-321 | a transaction saved against one version of its period gets a different fine when verified after the period's rate is edited |
| CashLedger.ApplyPatch | src/controllers/cashController.js:100-104 | name and amount change only when truthy; the due date whenever given, a given date string being truthy; rate and active flag whenever present, a `null` active flag stored as NULL; only for a patch without a `null` rate, which `UpdatePeriod` refuses |
| CashLedger.EmptyPatchIsIdentity | src/controllers/cashController.js:100-104 | an empty body leaves the period unchanged |
| CashLedger.Ledger.ListPeriods | src/controllers/cashController.js:29-32 | exactly the stored periods the `is_active` filter selects: without it every period; with `'true'` exactly the active ones; with any other value, the empty one included, only periods stored inactive, a NULL flag matching neither |
| CashLedger.Ledger.GetPeriod | src/controllers/cashController.js:48-60 | the stored period, or NotFound exactly when absent |
| CashLedger.Ledger.CreatePeriod | src/controllers/cashController.js:69-79 | MissingFields exactly when the name or amount is falsy or no due date is given; otherwise a new active period with the rate defaulting to 0, under a fresh id |
| CashLedger.Ledger.UpdatePeriod | src/controllers/cashController.js:94-106 | NotFound for an absent id; a `null` rate fails the non-null column's validation (400) with nothing stored; otherwise the period becomes `ApplyPatch` of itself |
| CashLedger.Ledger.StoredRowsPassValidation | src/models/CashTransaction.js:53-59 | every stored transaction passes the `proofRequired` validator unchanged |
| CashLedger.Ledger.DeletePeriod | src/controllers/cashController.js:119-134 | NotFound; refused while any transaction in any status references the period; otherwise removed |
| CashLedger.Ledger.SubmitTransaction | src/controllers/cashController.js:186-232 | errors in order with the ledger unchanged: missing fields, unknown period, inactive period, already a live transaction, missing proof, then a method outside the ENUM refused by the database; success exactly when every guard passes; then one appended row, COMPLETE exactly for CASH, with the proof URL `/uploads/proofs/` plus the file name when a file came, whose fine is the hook's floor rule; the one-live-transaction invariant is kept |
| CashLedger.Ledger.VerifyTransaction | src/controllers/cashController.js:302-321 | an invalid decision before the lookup, then NotFound, then NotPending; a PENDING row moves to the decision with the verifier recorded and its fine recomputed by the hook |
| CashLedger.Ledger.GetStatistics | src/controllers/cashController.js:353-409 | MissingFields without a `period_id` (a given "0" is looked up), NotFound for an unknown period; otherwise exactly the user count, the COMPLETE and PENDING counts, unpaid as their difference, and the collected and fined sums over COMPLETE rows; these add up to the user count, paid plus pending is at most the number of transactions, and no paid rows means no totals |
| Documents.CanAccessDocument | src/controllers/documentController.js:8-29 | ADMIN sees everything; PUBLIC is open; BOARD is for P, VP, SEC and DIRECTOR; EXECUTIVE is for P, VP and SEC; unknown levels are closed |
| Documents.TiersNested | src/controllers/documentController.js:17-28 | whoever sees EXECUTIVE sees BOARD, and whoever sees BOARD sees PUBLIC |
| Documents.AccessFilter | src/controllers/documentController.js:53-69 | for a non-admin the list filter admits exactly the levels `canAccessDocument` allows, whatever level was requested |
| Documents.DocumentStore.ListDocuments | src/controllers/documentController.js:53-71 | a database refusal (500) exactly when an admin asks for a level outside the ENUM; otherwise a non-admin lists exactly the stored documents they may open, whatever level was asked for, and an admin lists every document, or exactly those of the level asked for |
| Documents.DocumentStore.GetDocument | src/controllers/documentController.js:106-113 | NotFound for an absent document, Forbidden for an inaccessible one, and only accessible documents are returned |
| Documents.DocumentStore.UploadDocument | src/controllers/documentController.js:126-144 | file required, then title (the upload is deleted); level defaults to PUBLIC; a level outside the ENUM is refused by the database (500) and the file is deleted; otherwise the new record under a fresh id |
| Documents.DocumentStore.UpdateDocument | src/controllers/documentController.js:171-183 | NotFound; title and level applied when truthy, description whenever present; a level outside the ENUM is refused by the database (500) with nothing stored |
| Permissions.Contributed | src/middlewares/checkPermission.js:20 | an entry contributes a slug exactly when it is non-null with a truthy slug |
| Permissions.EntrySlugsMembership | src/middlewares/checkPermission.js:18-22 | the slugs collected from a permission array are exactly its non-empty slugs |
| Permissions.RoleSlugsMembership | src/middlewares/checkPermission.js:16-24 | the slugs collected over all roles are exactly those some role's array carries |
| Permissions.CheckPermission | src/middlewares/checkPermission.js:4-30 | 401 without a user; otherwise it passes exactly when a role is named ADMIN or some role carries the slug, and is 403 otherwise |
| Permissions.GrantsMonotone | src/middlewares/checkPermission.js:9-28 | more roles or more permissions never turn a grant into a denial |
| Permissions.UncataloguedSlugAdminOnly | src/seeders/03-roles.js:3-28 | with only seeded slugs on the roles, a slug outside the catalog is granted exactly to ADMINs |
| Permissions.WorkProgramRoutesAdminOnly | src/routes/workProgramRoutes.js:20-22 | with only seeded slugs, the work-program write routes admit exactly the ADMINs |
| CsvValidation.RowErrorsShape | src/utils/csvParser.js:23-42 | a row yields at most four errors, all numbered index+2, in check order, and none exactly when the row is valid |
| CsvValidation.RowErrorsReport | src/utils/csvParser.js:26-42 | each problem is reported for a row exactly when its check fails: blank name, blank e-mail, malformed e-mail, blank password, position outside the list |
| CsvValidation.AllErrorsRows | src/utils/csvParser.js:23-24 | every reported row number lies between 2 and the number of rows + 1 |
| CsvValidation.AllErrorsSorted | src/utils/csvParser.js:23-43 | the errors come in row order, and in check order within a row |
| CsvValidation.AllErrorsEmpty | src/utils/csvParser.js:23-45 | no errors exactly when no row yields one |
| CsvValidation.AllErrorsEmptyIffValid | src/utils/csvParser.js:19-45 | no errors exactly when every row is valid |
| CsvValidation.AllErrorsRow | src/utils/csvParser.js:23-43 | every error of a row appears in the full list |
| CsvValidation.ValidateUserCsv | src/utils/csvParser.js:19-45 | the loop returns the row-by-row error list |
| CsvValidation.AllErrorsReportEachRow | src/utils/csvParser.js:26-42 | every failing check of every row (blank name, blank or malformed e-mail, blank password, invalid position) is reported with the row number |
| CsvValidation.AcceptedRows | src/utils/csvParser.js:26-42 | a file without errors has name, e-mail and password on every row and only valid positions |
| CsvValidation.PositionCaseInsensitive | src/utils/csvParser.js:40 | the position check ignores case |
| Users.PositionName | src/models/User.js:9 | every position is stored as one of the six ENUM values |
| Users.ParsePosition | src/models/User.js:9 | a string is accepted exactly when it is one of the ENUM values, and read back unchanged |
| Users.PositionRoundTrip | src/models/User.js:9 | storing a position and reading it back gives it unchanged |
| Users.IndexOf | src/controllers/userController.js:262 | -1 exactly when absent, otherwise the first index holding the value |
| Users.IndexOfIsEarlier | src/controllers/userController.js:262 | the filter keeps an entry exactly when the same e-mail occurs earlier |
| Users.RepeatedEntriesMembership | src/controllers/userController.js:262 | the filter keeps an e-mail exactly when it occurs at least twice |
| Users.DedupProperties | src/controllers/userController.js:265 | the set spread keeps exactly the values of the list, each once |
| Users.DuplicatesCorrect | src/controllers/userController.js:261-266 | the reported duplicates are exactly the e-mails occurring more than once, each named once |
| Users.NoDuplicatesDistinct | src/controllers/userController.js:261-266 | no duplicate reported means the lower-cased e-mails are pairwise distinct |
| Users.BulkUser | src/controllers/userController.js:288-300 | an imported user keeps the row's name, password and division ids, has its e-mail lower-cased, the upper-cased position or STAFF, and the MEMBER role when it exists |
| Users.UserDirectory.CreateUser | src/controllers/userController.js:99-134 | MissingFields, then EmailExists, then a database refusal (500) for a position outside the ENUM or a division or sub-division id naming no stored row; success exactly when none applies; then a new user with STAFF as default position, falsy division ids stored as null, and its initial roles; e-mails stay unique and no reference dangles |
| Users.UserDirectory.UpdateUser | src/controllers/userController.js:166-196 | NotFound; EmailExists only for a changed e-mail; a database refusal (500) for a position outside the ENUM or a changed division reference naming no stored row; success exactly when none applies; then truthy name, e-mail and position applied, division ids whenever present, a role array replaces the roles; e-mails stay unique and no reference dangles |
| Users.UserDirectory.Insert | src/controllers/userController.js:113-120 | a record with a new e-mail is stored under the next id |
| Users.UserDirectory.Store | src/controllers/userController.js:188 | saving a record whose e-mail is its own or new keeps e-mails unique |
| Users.UserDirectory.CreateRows | src/controllers/userController.js:286-303 | one user per record, in row order, under consecutive ids, up to the first record whose division references do not hold; the users created before it stay; old users unchanged |
| Users.AppendedKeepsRefs | src/models/index.js:19-22 | the bulk loop creates only users whose division and sub-division references hold, so none is left dangling |
| Users.UserDirectory.StoredAmong | src/controllers/userController.js:269-280 | exactly the e-mails of the list that some stored user has |
| Users.UserDirectory.ImportRows | src/controllers/userController.js:260-303 | the duplicate list when an e-mail repeats; otherwise the stored e-mails among them when there are any; otherwise the rows are created in order, all (201) or up to the first dangling reference (500); nothing changes in the first two cases |
| Users.UserDirectory.BulkUploadUsers | src/controllers/userController.js:245-303 | no file; CSV errors; the duplicate list; the exact set of stored e-mails among the lower-cased ones; nothing created in any of these; otherwise `BulkUser` of each row is created in order, all of them (201) or, when a row's division reference dangles, those before it (500); no reference dangles |
| Divisions.DivisionStore.GetDivision | src/controllers/divisionController.js:67-69 | NotFound exactly when absent |
| Divisions.DivisionStore.GetDivisionMembers | src/controllers/divisionController.js:156-173 | NotFound exactly when absent; otherwise exactly the division's users |
| Divisions.DivisionStore.CreateDivision | src/controllers/divisionController.js:82-91 | fails exactly when the name is falsy; otherwise a new division under a fresh id |
| Divisions.DivisionStore.UpdateDivision | src/controllers/divisionController.js:104-115 | NotFound; name applied when truthy, description whenever present |
| Divisions.DivisionStore.DeleteDivision | src/controllers/divisionController.js:128-143 | NotFound; refused and kept while any user belongs to it; otherwise removed; no user is left pointing at a missing division |
| WorkPrograms.NonAdminManagesOwnDivisionOnly | src/controllers/workProgramController.js:95-99 | without ADMIN, a user manages at most one division, as its DIRECTOR |
| WorkPrograms.OnlyDirectorsAndAdmins | src/controllers/workProgramController.js:95-99 | a user who is not a DIRECTOR manages a division exactly when they are an ADMIN |
| WorkPrograms.WorkProgramStore.CreateWorkProgram | src/controllers/workProgramController.js:82-116 | missing fields, then an unknown division, then Forbidden unless ADMIN or its DIRECTOR; targets default to [] and status to PLANNED |
| WorkPrograms.WorkProgramStore.UpdateWorkProgram | src/controllers/workProgramController.js:144-173 | NotFound before Forbidden; truthy name and status and given targets applied; a `pic_ids` array replaces the whole set; the division never changes |
| WorkPrograms.WorkProgramStore.DeleteWorkProgram | src/controllers/workProgramController.js:201-215 | NotFound before Forbidden; otherwise removed |
| Articles.StatusName | src/models/Article.js:12 | every status is stored as one of the three ENUM values |
| Articles.ParseStatus | src/models/Article.js:12 | a string is accepted exactly when it is an ENUM value, and read back unchanged |
| Articles.StatusRoundTrip | src/models/Article.js:12 | storing a status and reading it back gives it unchanged |
| Articles.NewArticle | src/controllers/articleController.js:170-181 | a new article has the caller as author, the given title, content and status, no editor, a publish date exactly when it is created PUBLISHED, and the articles upload URL of the image file when one came |
| Articles.Updated | src/controllers/articleController.js:218-245 | truthy title and content replace the old ones, a given status and image file likewise; the caller becomes editor at `now`; the publish date changes only on a move to PUBLISHED from another status, and then to `now`; a published article stays dated |
| Articles.Republished | src/controllers/articleController.js:312-315 | PUBLISHED with the date reset to `now`, whatever it was before |
| Articles.PublishVersusUpdate | src/controllers/articleController.js:231-233 | on a published article, publishing again moves the date but an update sending PUBLISHED keeps it |
| Articles.ArchiveKeepsPublishDate | src/controllers/articleController.js:231-233 | publishing a draft by update and then archiving it keeps the first publish date |
| Articles.ArticleStore.PublishedListMatchesGet | src/controllers/articleController.js:52-81 | an article is in the public list exactly when the public detail returns it, and every listed article has a publish date |
| Articles.ArticleStore.GetPublishedArticle | src/controllers/articleController.js:52-81 | NotFound unless the article exists and is PUBLISHED; a returned article carries a publish date |
| Articles.ArticleStore.CreateArticle | src/controllers/articleController.js:164-183 | MissingFields, then a database refusal (500) for a status outside the ENUM; success exactly when neither applies; the status defaults to DRAFT; the new record is `NewArticle` |
| Articles.ArticleStore.UpdateArticle | src/controllers/articleController.js:210-247 | NotFound; a status outside the ENUM is refused by the database (500) with nothing changed; success exactly when neither applies; then the article becomes `Updated` of itself |
| Articles.ArticleStore.PublishArticle | src/controllers/articleController.js:306-317 | NotFound; otherwise `Republished`, and listed publicly |

## Left out

- **Listing.** SQL ordering, pagination, search (`iLike`) and eager loading are left out. The lists are modelled as sets of ids.
- **`payment_rate`.** It is a floating-point percentage string that divides by a possibly-zero member count.
- **File storage.** Multer, random file names and `fs.unlinkSync` clean-up are file-system I/O. The uploaded documents are tracked as a set of names; old article images are not deleted.
- **JWT authentication and password hashing.** These are foreign library calls. The authenticated caller is a parameter.
- **`parseCSV`.** It wraps the `csv-parser` library. The bulk import takes the parsed rows.
- **Concurrency.** The check-then-insert race in submission and in the e-mail checks is not modelled; the model is single-threaded.
- **The clock.** `new Date()` is the parameter `now`. The two calls in `updateArticle` and `publishArticle` are taken to read the same instant.
- **Invalid values.** Invalid dates, non-numeric ids, `null` role entries in `req.user.roles` and JSON `null` field values are not modelled, except the rate and active flag of `updatePeriod`.
- **Numeric width.** Amounts, rates, fines and sums are BIGINT columns (src/models/CashPeriod.js:14-21, src/models/CashTransaction.js:22-30) computed with JavaScript doubles (src/controllers/cashController.js:17, src/models/CashTransaction.js:73). The model uses unbounded integers, so neither the precision lost above 2^53 nor the database's refusal above 2^63-1 is modelled.
- **Case mapping.** `toUpperCase`/`toLowerCase` are modelled on ASCII letters only; full Unicode case mapping is left out.
- **Seeders, routes and Express wiring.** Response envelopes and the delete handlers `deleteUser` and `deleteArticle` are left out. Only the seeded permission catalog is transcribed, as a constant.
- **The rate column.** `late_fee_per_day` is non-nullable, so the hook's `|| 0` fallback is taken to be the identity.
- **Users.UserDirectory.BulkUploadUsers: existing e-mails.** They are reported as a set, without the order or repetition of the database result.
- **Users.BulkUser: division cells.** They are taken as already-parsed numbers. An empty cell is `None`, so `|| null` only maps the empty cell.
- **Request bodies of other shapes.** A JSON (non-multipart) transaction submission could carry `period_id` as the number 0, which is falsy and would answer 400 rather than 404. The model takes the multipart form the route accepts.
- **Deleting a division.** What the database does to the sub-divisions and work programs that reference a deleted division is not modelled. Only the handler's own member check is.
- **Users.UserDirectory.CreateUser: the e-mail lookup.** It is modelled as exact, case-sensitive equality, as the unique column compares.
