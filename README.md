# Hospital finance backend: settlement, payment, spreadsheet import and reports

This Dafny project models the core services of a hospital finance backend (a
NestJS application over a relational store accessed through Prisma):

- **Accounts receivable** (`receivables.dfy`, module `Receivables`). The
  receivable table is a class `ReceivableStore` whose `table: map<Id,
  Receivable>` the methods `FindOne`, `Update`, `Remove` and `Receive` read
  and update in place.
  - The settlement rule is pure. A receive request is refused when the
    record is fully received or denied ("glosado"). Otherwise the received
    amount accumulates, a non-zero denial amount replaces the stored one,
    and the new status is chosen by priority: GLOSADO, then RECEBIDO, then
    PARCIAL, then ABERTO.
  - `SettledStatus`, `ReceiveGuard`, `Settle` and `ReceiveAll` state this
    rule, and lemmas state what it implies over one request and over many.
- **Accounts payable** (`payables.dfy`, module `Payables`). The class
  `PayableStore` holds the payable table.
  - `Pay` stamps an ABERTO record as PAGO, with the given payment date or
    "now".
  - `PayBatch` is a loop that stamps every listed record that is not
    cancelled. It is proved equal to the bulk update `BatchPaid`, and
    `BatchPaid` is related to paying the records one at a time.
- **Spreadsheet import** (`import_parsing.dfy`, module `ImportParsing`; and
  `import_store.dfy`, module `ImportStore`).
  - The pure helpers:
    - reading a row's cells through `a || b || fallback` chains;
    - `toUpperCase`-based status and origin parsing;
    - `split('.')`-based GSI group and subgroup codes;
    - JavaScript `parseInt`, and the `DD/MM/YYYY` branch of `parseDate`;
    - the CSV/XLSX dispatch of `parseFile`.
  - The class `ImportDatabase` holds every table the import touches, as
    sequences in insertion order. Its methods are the find-or-create lookups
    (GSI item, with its group and subgroup; bank; person), the row bodies
    and row loops of both uploads, and the two upload operations.
  - Each method is proved equal to a specification function: `GsiItemFor`,
    `BankFor`, `PersonFor`, `ImportRow`, `ImportRows` and `Upload`.
  - Lemmas about these functions prove:
    - the identifier and foreign-key invariants (`IdsBelow`, `Linked`);
    - that lookups only append, and that asking again creates nothing;
    - the counts and error list of the upload result, and the upload log.
- **Reports** (`reports.dfy`, module `Reports`). Pure functions cover:
  - the three account listings and the denial listing: the `where` filter
    as a predicate, `orderBy` as a sort;
  - the cash-flow totals.
  - The listings are proved to hold exactly the matching rows, in order.
    The totals are proved to split.

Shared identifiers, enumerations and errors are in `common.dfy` (module
`Common`).

Conventions:
- Identifiers are natural numbers. Instants are integers (milliseconds).
- Amounts are `real`s.
- The current time ("now") and the JavaScript native date parser are
  parameters.
- Prisma's "`undefined` leaves the column unchanged" is modelled by
  `Option` fields read through `Overwrite`.

The code raises `BadRequestException` (400) for the status conflicts of
`pay` and `receive`. The model follows the code: `Common.Kind` maps these
errors to `BadRequest400`, not to a separate conflict status.

## Model

| member | source | states |
|---|---|---|
| Common.Kind | backend/src/accounts-receivable/accounts-receivable.service.ts:87-88 | only a missing record answers 404 (NotFoundException); every rule violation answers 400 (BadRequestException) |
| Receivables.SettledStatus | backend/src/accounts-receivable/accounts-receivable.service.ts:137-146 | status by priority: GLOSADO iff the denial is positive; RECEBIDO iff no denial and received >= expected; PARCIAL iff no denial, short and received > 0; ABERTO otherwise (all four as if-and-only-if) |
| Receivables.NewGlosa | backend/src/accounts-receivable/accounts-receivable.service.ts:134 | a given non-zero denial amount replaces the stored one; an absent or zero one keeps it |
| Receivables.ReceiveGuard | backend/src/accounts-receivable/accounts-receivable.service.ts:125-131 | refusal "already received" iff RECEBIDO with received >= expected; "glosado" iff GLOSADO; accepted iff neither |
| Receivables.Settle | backend/src/accounts-receivable/accounts-receivable.service.ts:133-156 | the record a successful receive writes: summed received amount, replacing denial, status by priority, receipt date or now, note; SettleWrites states each column |
| Receivables.ReceiveStep | backend/src/accounts-receivable/accounts-receivable.service.ts:125-156 | the guard, then the settlement; GuardOnConsistentRecord, ShortRecebidoIsAccepted and FullReceiptThenRefused state when it refuses |
| Receivables.ReceiveOutcome | backend/src/accounts-receivable/accounts-receivable.service.ts:122-171 | not-found for a missing id, else the step on the stored record; ReceivableStore.Receive is proved to answer exactly this |
| Receivables.ApplyPatch | backend/src/accounts-receivable/accounts-receivable.service.ts:94-113 | the record update writes: every given column replaced, the rest kept; ReceivableStore.Update is proved to write exactly this |
| Receivables.ReceiveAll | backend/src/accounts-receivable/accounts-receivable.service.ts:122-171 | successive receive requests stopping at the first refusal; ReceiveAllAccumulates and ReceiveAllMonotone state what a run does |
| Receivables.SettleWrites | backend/src/accounts-receivable/accounts-receivable.service.ts:133-156 | a settlement adds the input to the received amount, writes the replacing denial amount, the receipt date (given or now) and the note, leaves the status consistent with the amounts and touches no other column |
| Receivables.SettleReceivedMonotone | backend/src/accounts-receivable/accounts-receivable.service.ts:133 | with a non-negative input the received amount never decreases |
| Receivables.GlosaOverridesFullReceipt | backend/src/accounts-receivable/accounts-receivable.service.ts:129-141 | a positive denial makes the record GLOSADO even when fully received, and every later receive is refused |
| Receivables.GuardOnConsistentRecord | backend/src/accounts-receivable/accounts-receivable.service.ts:125-146 | on a record whose status matches its amounts, receive is accepted iff there is no denial and the received amount is short |
| Receivables.ShortRecebidoIsAccepted | backend/src/accounts-receivable/accounts-receivable.service.ts:125-127 | a RECEBIDO record whose received amount is below the expected one is not refused |
| Receivables.ReceiveAllAccumulates | backend/src/accounts-receivable/accounts-receivable.service.ts:133-153 | over successive accepted requests the received amounts add up, the last non-zero denial wins, the expected amount is unchanged and the final status matches the final amounts |
| Receivables.ReceiveAllMonotone | backend/src/accounts-receivable/accounts-receivable.service.ts:133 | with non-negative inputs the received amount never decreases over any run |
| Receivables.GlosadoIsTerminal | backend/src/accounts-receivable/accounts-receivable.service.ts:129-131 | a GLOSADO record refuses every single request, whatever its amounts, and a run of requests against it stops at the first |
| Receivables.TwoPartialReceipts | backend/src/accounts-receivable/accounts-receivable.service.ts:133-146 | 100 then 50 on an open record of 200 leaves 150 received and PARCIAL |
| Receivables.FullReceiptThenRefused | backend/src/accounts-receivable/accounts-receivable.service.ts:125-141 | receiving the full amount without denial gives RECEBIDO, and the next request is refused as already received |
| Receivables.ReceivableStore.constructor | backend/src/accounts-receivable/accounts-receivable.service.ts:10 | the store starts from the given table |
| Receivables.ReceivableStore.FindOne | backend/src/accounts-receivable/accounts-receivable.service.ts:69-92 | the stored record iff the id is present, else not-found |
| Receivables.ReceivableStore.Update | backend/src/accounts-receivable/accounts-receivable.service.ts:94-113 | not-found and no change for a missing id; otherwise exactly the given columns of that record are replaced and no other record changes |
| Receivables.ReceivableStore.Remove | backend/src/accounts-receivable/accounts-receivable.service.ts:115-120 | not-found and no change for a missing id; otherwise exactly that record is deleted and returned |
| Receivables.ReceivableStore.Receive | backend/src/accounts-receivable/accounts-receivable.service.ts:122-171 | the answer is the settlement outcome; a refusal changes nothing; success writes the settled record in place, status consistent with its amounts, other records unchanged |
| Payables.PayGuard | backend/src/accounts-payable/accounts-payable.service.ts:125-131 | accepted iff ABERTO; "already paid" iff PAGO; "cancelled" iff CANCELADO |
| Payables.PaymentStamp | backend/src/accounts-payable/accounts-payable.service.ts:133-140 | the columns pay writes: PAGO, the date or now, the given method and note; PayWrites and StampIdempotent state them |
| Payables.PayOutcome | backend/src/accounts-payable/accounts-payable.service.ts:122-155 | not-found, the guard's refusal, or the stamped record; PayableStore.Pay is proved to answer exactly this |
| Payables.PayEach | backend/src/accounts-payable/accounts-payable.service.ts:122-155 | a reference definition: pay applied to each id in turn, refusals skipped; BatchIsPayEach proves the bulk update equal to it |
| Payables.Eligible | backend/src/accounts-payable/accounts-payable.service.ts:158-163 | the batch selects exactly the listed, stored, non-cancelled records |
| Payables.BatchPaid | backend/src/accounts-payable/accounts-payable.service.ts:169-180 | the bulk update keeps the set of stored ids |
| Payables.PayWrites | backend/src/accounts-payable/accounts-payable.service.ts:122-140 | a successful pay was on an ABERTO record, makes it PAGO with the given date or now, writes the given method and note (an absent one keeps the column), and keeps amount, description, due date and links |
| Payables.StampIdempotent | backend/src/accounts-payable/accounts-payable.service.ts:135-140 | stamping twice with the same request is stamping once |
| Payables.BatchPaidRecords | backend/src/accounts-payable/accounts-payable.service.ts:169-180 | a selected record receives exactly the stamp pay writes: PAGO, the request's date or now, the given method and note, amount, description, due date and links kept; cancelled and unlisted records are unchanged |
| Payables.BatchRestampsPaid | backend/src/accounts-payable/accounts-payable.service.ts:125-127 | a PAGO record is refused by pay but re-stamped by the batch |
| Payables.BatchIdempotent | backend/src/accounts-payable/accounts-payable.service.ts:169-180 | running the same batch twice gives the table one run gives |
| Payables.BatchPaidStep | backend/src/accounts-payable/accounts-payable.service.ts:169-180 | listing one more id stamps that record unless it is cancelled |
| Payables.BatchIsPayEach | backend/src/accounts-payable/accounts-payable.service.ts:122-181 | when no listed PAGO record carries a different stamp, the bulk update equals paying the ids one by one with pay and skipping refusals |
| Payables.PayableStore.constructor | backend/src/accounts-payable/accounts-payable.service.ts:10 | the store starts from the given table |
| Payables.PayableStore.FindOne | backend/src/accounts-payable/accounts-payable.service.ts:69-92 | the stored record iff the id is present, else not-found |
| Payables.PayableStore.Pay | backend/src/accounts-payable/accounts-payable.service.ts:122-155 | not-found iff the id is missing; a refusal changes nothing; success means the record was ABERTO and is now PAGO in place, other records unchanged |
| Payables.PayableStore.PayBatch | backend/src/accounts-payable/accounts-payable.service.ts:157-181 | refused and unchanged iff nothing is eligible; otherwise answers the eligible count (> 0) and the table equals the bulk update |
| ImportParsing.Upper | backend/src/upload/upload.service.ts:269 | `toUpperCase` keeps the length and maps each character |
| ImportParsing.Lower | backend/src/upload/upload.service.ts:269 | ASCII lower case keeps the length and maps each character (used to state case-insensitivity) (proof helper) |
| ImportParsing.UpperIdempotent | backend/src/upload/upload.service.ts:269 | upper-casing twice is upper-casing once |
| ImportParsing.UpperOfLower | backend/src/upload/upload.service.ts:269 | the upper case of the lower case of an upper-case ASCII name is the name |
| ImportParsing.FirstFilled | backend/src/upload/upload.service.ts:152-153 | the or-chain over the row's cells with a fallback; FirstFilledSpec states that it is the first non-empty cell, else the fallback |
| ImportParsing.CellChain | backend/src/upload/upload.service.ts:44-45 | the or-chain without fallback; CellChainSpec states the answer, including the last column's empty text or nothing |
| ImportParsing.ParsePayableStatus | backend/src/upload/upload.service.ts:267-273 | `parseStatus`; ParsersSpec states its answer in terms of the text's upper case, StatusNamesRoundTrip that every name parses back |
| ImportParsing.ParseReceivableStatus | backend/src/upload/upload.service.ts:275-282 | `parseReceivableStatus`; ParsersSpec and StatusNamesRoundTrip state its answers |
| ImportParsing.ParseOrigin | backend/src/upload/upload.service.ts:284-290 | `parseOrigem`, total with PACIENTE as default; ParsersSpec and OriginNamesRoundTrip state its answers |
| ImportParsing.FirstFilledSpec | backend/src/upload/upload.service.ts:152-153 | `a || b || fallback` answers the first non-empty cell when there is one, else the fallback, and is non-empty when the fallback is |
| ImportParsing.OptionalCell | backend/src/upload/upload.service.ts:230 | `a || b || null` is present only as the first non-empty cell |
| ImportParsing.CellChainSpec | backend/src/upload/upload.service.ts:44-45 | `a || b` without fallback is the first non-empty cell, else the last column's text (empty) or nothing when that column is absent |
| ImportParsing.ParsersSpec | backend/src/upload/upload.service.ts:267-290 | for the three parsers: no status iff the cell is empty; each listed name (in the text's upper case) iff its value; CONVENIO with or without circumflex; ENCONTRO_CONTAS with `_` or space |
| ImportParsing.PersonTypeFor | backend/src/upload/upload.service.ts:89 | the person is CONVENIO iff the origin is CONVENIO, else PACIENTE |
| ImportParsing.StatusNamesRoundTrip | backend/src/upload/upload.service.ts:267-282 | every status name parses back to its status, in upper and in lower case |
| ImportParsing.OriginNamesRoundTrip | backend/src/upload/upload.service.ts:284-290 | every origin name parses back to its origin, in upper and in lower case |
| ImportParsing.UpperIdempotentOnCaps | backend/src/upload/upload.service.ts:269 | an upper-case ASCII text is its own upper case |
| ImportParsing.ParsingIgnoresCase | backend/src/upload/upload.service.ts:267-290 | texts with the same upper case (and both empty or both not) parse alike |
| ImportParsing.Split | backend/src/upload/upload.service.ts:161 | `split` gives at least one piece and no piece holds the separator |
| ImportParsing.JoinSplit | backend/src/upload/upload.service.ts:161 | joining the pieces with the separator gives the text back |
| ImportParsing.SplitNoSeparator | backend/src/upload/upload.service.ts:161 | a text without the separator is one piece |
| ImportParsing.SplitAfterHead | backend/src/upload/upload.service.ts:176 | a separator-free head is the first piece and the rest splits on |
| ImportParsing.SplitJoin | backend/src/upload/upload.service.ts:259 | splitting joined separator-free pieces gives the pieces back |
| ImportParsing.FirstPieceIsPrefix | backend/src/upload/upload.service.ts:161 | the first piece is a prefix of the text |
| ImportParsing.GroupCode | backend/src/upload/upload.service.ts:161 | the group code holds no `.` |
| ImportParsing.SubgroupCode | backend/src/upload/upload.service.ts:176 | the first two `.`-pieces, a missing second piece printed as "undefined"; GsiCodesOfThreeLevels, GsiCodesWithoutDot and GroupCodeIsPrefix state it |
| ImportParsing.GsiCodesOfThreeLevels | backend/src/upload/upload.service.ts:161-176 | for `g.s.i` the group code is `g` and the subgroup code `g.s` |
| ImportParsing.GsiCodesWithoutDot | backend/src/upload/upload.service.ts:161-176 | a code without `.` is its own group code and its subgroup code is `<code>.undefined` |
| ImportParsing.GroupCodeIsPrefix | backend/src/upload/upload.service.ts:161-176 | the group code is a prefix of the code and of the subgroup code |
| ImportParsing.TrimStart | backend/src/upload/upload.service.ts:261 | the white space `parseInt` skips is a prefix, and what is left does not start with it |
| ImportParsing.DigitValue | backend/src/upload/upload.service.ts:261 | a digit's value is below its radix |
| ImportParsing.DigitRun | backend/src/upload/upload.service.ts:261 | the digit run is no longer than the text |
| ImportParsing.ParseInt | backend/src/upload/upload.service.ts:261 | JavaScript `parseInt` without radix; ParseIntOfDigits and ParseIntRoundTrip state that it reads decimal digit runs and inverts decimal printing |
| ImportParsing.DecimalText | backend/src/upload/upload.service.ts:261 | a decimal rendering is a non-empty run of decimal digits |
| ImportParsing.DecimalTextValue | backend/src/upload/upload.service.ts:261 | the digits of a decimal rendering have the rendered value |
| ImportParsing.ParseIntOfDigits | backend/src/upload/upload.service.ts:261 | `parseInt` reads any run of decimal digits, leading zeros included |
| ImportParsing.DigitRunAll | backend/src/upload/upload.service.ts:261 | on a text of digits the digit run is the whole text |
| ImportParsing.ParseIntRoundTrip | backend/src/upload/upload.service.ts:261 | `parseInt` inverts printing a natural number in decimal |
| ImportParsing.ParseDate | backend/src/upload/upload.service.ts:249-265 | `parseDate`: now for an empty cell, the native parse, else the DD/MM/YYYY reading; ParseDateBrazilian and InvalidDateOnlyFromBadPieces state its outcomes |
| ImportParsing.DayMonthYear | backend/src/upload/upload.service.ts:261 | the date of day, month - 1 and year, Invalid Date on a NaN piece; DayMonthYearOfNumbers and DayMonthYearOfDigits state it |
| ImportParsing.ParseDateBrazilian | backend/src/upload/upload.service.ts:249-265 | a DD/MM/YYYY cell the native parser rejects becomes the local date with month index MM - 1 |
| ImportParsing.DayMonthYearOfDigits | backend/src/upload/upload.service.ts:261 | three digit runs give the local date of their values |
| ImportParsing.DayMonthYearOfNumbers | backend/src/upload/upload.service.ts:261 | three parsed numbers give `new Date(y, m - 1, d)` |
| ImportParsing.SplitDayMonthYear | backend/src/upload/upload.service.ts:259-260 | a DD/MM/YYYY text of digits splits into its three pieces |
| ImportParsing.NoSlashInDigits | backend/src/upload/upload.service.ts:259 | a run of digits holds no `/` (proof helper) |
| ImportParsing.InvalidDateOnlyFromBadPieces | backend/src/upload/upload.service.ts:249-265 | an Invalid Date arises only for a non-empty text the native parser rejects, with three `/`-pieces, one of which is not a number |
| ImportParsing.DetectFormat | backend/src/upload/upload.service.ts:132-149 | CSV iff CSV mime type or `.csv` name; XLSX iff not CSV and XLSX mime type or `.xlsx` name; otherwise the unsupported-format bad request |
| ImportParsing.CsvCheckComesFirst | backend/src/upload/upload.service.ts:133-140 | a `.csv` name is CSV whatever the mime type, and no name ends in both suffixes |
| ImportParsing.LastCharOfSuffix | backend/src/upload/upload.service.ts:133 | a text ending in a suffix ends in the suffix's last character (proof helper) |
| ImportStore.SameIds | backend/src/upload/upload.service.ts:155-247 | tables with the same rows of a kind have the same ids of that kind (proof helper) |
| ImportStore.FindFirst | backend/src/upload/upload.service.ts:155-157 | a found index is in range |
| ImportStore.FindFirstSpec | backend/src/upload/upload.service.ts:155-157 | `findFirst` answers the first matching row, and nothing only when no row matches |
| ImportStore.FindFirstAppend | backend/src/upload/upload.service.ts:155-157 | appending a row keeps an earlier first match, and is the first match when it is the only one |
| ImportStore.FindFirstNone | backend/src/upload/upload.service.ts:155-157 | nothing is found when no row matches |
| ImportStore.FindFirstIs | backend/src/upload/upload.service.ts:155-157 | the first match is the first index where the condition holds |
| ImportStore.GroupFor | backend/src/upload/upload.service.ts:161-174 | the group lookup by code, else creation; GroupForSound, GroupForGrows and GroupForFinds state it |
| ImportStore.SubgroupFor | backend/src/upload/upload.service.ts:176-190 | the subgroup lookup by code and group, else creation; SubgroupForSound, SubgroupForGrows and SubgroupForFinds state it |
| ImportStore.GsiItemFor | backend/src/upload/upload.service.ts:151-153 | the item lookup on the row's code (default "01.01.001") and name (default "Item GSI"); ImportDatabase.FindOrCreateGsiItem is proved to do exactly this |
| ImportStore.ItemFor | backend/src/upload/upload.service.ts:155-203 | find the item by code, else create it; ItemForSound, ItemForGrows, ItemForFinds and ItemForIdempotent state it |
| ImportStore.CreateItem | backend/src/upload/upload.service.ts:159-200 | group, subgroup, then item creation; CreateItemSpec, CreateItemGrows and CreateItemFinds state it |
| ImportStore.BankFor | backend/src/upload/upload.service.ts:205-226 | the bank lookup by code with the row's defaults, else creation; BankForSound, BankForGrows and BankForFinds state it |
| ImportStore.PersonFor | backend/src/upload/upload.service.ts:228-247 | the person lookup by name and role, else creation; PersonForSound, PersonForGrows and PersonForFinds state it |
| ImportStore.AddGroup | backend/src/upload/upload.service.ts:167-173 | a new group with the fresh id keeps the invariants and adds exactly its id |
| ImportStore.GroupForSound | backend/src/upload/upload.service.ts:161-174 | the group lookup keeps the invariants and answers a stored group |
| ImportStore.GroupForGrows | backend/src/upload/upload.service.ts:161-174 | the group lookup touches only the group table and the counter; a created group is "Grupo <code>" with a fresh id |
| ImportStore.GroupForFinds | backend/src/upload/upload.service.ts:161-174 | the group answered has the code; one is created iff none existed; asking again creates nothing |
| ImportStore.AddSubgroup | backend/src/upload/upload.service.ts:182-189 | a new subgroup with the fresh id under a stored group keeps the invariants |
| ImportStore.AddBank | backend/src/upload/upload.service.ts:214-222 | a new bank with the fresh id keeps the invariants |
| ImportStore.AddPerson | backend/src/upload/upload.service.ts:237-243 | a new person with the fresh id keeps the invariants |
| ImportStore.SubgroupForSound | backend/src/upload/upload.service.ts:176-190 | the subgroup lookup under a stored group keeps the invariants and answers a stored subgroup |
| ImportStore.SubgroupForGrows | backend/src/upload/upload.service.ts:176-190 | the subgroup lookup touches only the subgroup table and the counter; a created subgroup is "Subgrupo <code>" under the group |
| ImportStore.SubgroupForFinds | backend/src/upload/upload.service.ts:176-190 | the subgroup answered has the code and group; one is created iff none existed; asking again creates nothing |
| ImportStore.BankForSound | backend/src/upload/upload.service.ts:205-226 | the bank lookup keeps the invariants and answers a stored bank |
| ImportStore.BankForGrows | backend/src/upload/upload.service.ts:205-226 | the bank lookup touches only the bank table and the counter |
| ImportStore.BankForFinds | backend/src/upload/upload.service.ts:205-226 | the bank answered has the row's code (default "001"); one is created iff none has it; asking again creates nothing |
| ImportStore.PersonForSound | backend/src/upload/upload.service.ts:228-247 | the person lookup keeps the invariants and answers a stored person |
| ImportStore.PersonForGrows | backend/src/upload/upload.service.ts:228-247 | the person lookup touches only the person table and the counter; a created person has the row's name and document and the role asked for |
| ImportStore.PersonForFinds | backend/src/upload/upload.service.ts:228-247 | the person answered has the row's name and the role; one is created iff none has both; asking again creates nothing |
| ImportStore.AddItem | backend/src/upload/upload.service.ts:192-199 | a new item with the fresh id under a stored subgroup keeps the invariants |
| ImportStore.CreateItemSpec | backend/src/upload/upload.service.ts:159-200 | creating an item with its group and subgroup keeps the invariants |
| ImportStore.CreateItemGrows | backend/src/upload/upload.service.ts:159-200 | creating an item touches only the GSI tables and the counter; the item id is new |
| ImportStore.CreateItemFinds | backend/src/upload/upload.service.ts:159-200 | exactly the item is appended, under a subgroup coded by the first two pieces, under a group coded by the first piece |
| ImportStore.ItemForSound | backend/src/upload/upload.service.ts:151-203 | the item lookup keeps the invariants and answers a stored item |
| ImportStore.ItemForGrows | backend/src/upload/upload.service.ts:151-203 | the item lookup touches only the GSI tables and the counter |
| ImportStore.ItemForFinds | backend/src/upload/upload.service.ts:151-203 | the item answered has the code; an item is created iff none has it |
| ImportStore.ItemForIdempotent | backend/src/upload/upload.service.ts:151-203 | looking the same item up again creates nothing and answers the same id |
| ImportStore.RowDate | backend/src/upload/upload.service.ts:42 | the parsed due date of a payable row (the expected date of a receivable row, line 102); ImportRowError ties row failure to it |
| ImportStore.RowFails | backend/src/upload/upload.service.ts:35-56 | a row fails when its date is an Invalid Date; ImportRowError states the failure iff this |
| ImportStore.NewPayable | backend/src/upload/upload.service.ts:35-47 | the payable a row creates; InsertShape states it is appended with the fresh id |
| ImportStore.NewReceivable | backend/src/upload/upload.service.ts:92-105 | the receivable a row creates; InsertShape states it is appended with the fresh id |
| ImportStore.RowLookups | backend/src/upload/upload.service.ts:86-90 | the three lookups of a row; RowLookupsSound and RowLookupsGrows state them |
| ImportStore.Insert | backend/src/upload/upload.service.ts:92-115 | the insert or its caught failure; InsertShape and InsertSound state it |
| ImportStore.ImportRow | backend/src/upload/upload.service.ts:85-115 | one loop body; ImportRowShape, ImportRowSound and ImportRowError state it |
| ImportStore.RowLookupsSound | backend/src/upload/upload.service.ts:86-90 | the three lookups keep the invariants and answer stored rows |
| ImportStore.RowLookupsGrows | backend/src/upload/upload.service.ts:31-33 | the three lookups add only catalogue rows |
| ImportStore.CatalogGrowsTransitive | backend/src/upload/upload.service.ts:31-33 | adding catalogue rows twice is adding catalogue rows (proof helper) |
| ImportStore.AddPayable | backend/src/upload/upload.service.ts:35-47 | a new payable with the fresh id and stored links keeps the invariants |
| ImportStore.AddReceivable | backend/src/upload/upload.service.ts:92-105 | a new receivable with the fresh id and stored links keeps the invariants |
| ImportStore.InsertSound | backend/src/upload/upload.service.ts:35-47 | the insert keeps the invariants when its links exist |
| ImportStore.InsertShape | backend/src/upload/upload.service.ts:92-115 | the insert fails iff the date is invalid, reporting line i + 2 and the row and changing nothing; otherwise exactly one account is appended with a fresh id |
| ImportStore.ImportRowShape | backend/src/upload/upload.service.ts:29-57 | a row only appends, writes no log, and a failing row keeps the rows its lookups created |
| ImportStore.ImportRowAdds | backend/src/upload/upload.service.ts:84-115 | a successful row adds one account to the target table and none to the other; a failing row adds none |
| ImportStore.ImportRowSound | backend/src/upload/upload.service.ts:29-57 | a row keeps the invariants |
| ImportStore.ImportRowsStep | backend/src/upload/upload.service.ts:27-58 | one loop turn adds the row's success or its error entry |
| ImportStore.ImportRowError | backend/src/upload/upload.service.ts:50-56 | a row fails iff its date is invalid, whatever the tables, and is reported as line i + 2 with its data |
| ImportStore.ImportRows | backend/src/upload/upload.service.ts:83-116 | the row loop; ImportRowsErrors, ImportRowsTally, ImportRowsSound and ImportRowsCounts state it |
| ImportStore.ImportRowsErrors | backend/src/upload/upload.service.ts:83-116 | the loop's error list is the list of failing rows |
| ImportStore.FailedRowsSound | backend/src/upload/upload.service.ts:50-56 | every entry names a failing row by its line and carries its data |
| ImportStore.FailedRowsOrdered | backend/src/upload/upload.service.ts:27-58 | the entries are in file order, so no row is named twice |
| ImportStore.FailedRowsComplete | backend/src/upload/upload.service.ts:27-58 | every failing row is named |
| ImportStore.ImportRowsSound | backend/src/upload/upload.service.ts:27-58 | the loop keeps the invariants |
| ImportStore.ImportRowsTally | backend/src/upload/upload.service.ts:49-51 | every row is counted once, as a success or as an error |
| ImportStore.ImportRowsCounts | backend/src/upload/upload.service.ts:83-116 | the loop only appends, writes no log, and adds one target account per success |
| ImportStore.Finish | backend/src/upload/upload.service.ts:118-129 | the result and the log entry appended after the loop; FinishSound and UploadResultSpec state it |
| ImportStore.Upload | backend/src/upload/upload.service.ts:74-130 | the whole upload; UploadRefused, UploadResultSpec and UploadSound state it |
| ImportStore.UploadRefused | backend/src/upload/upload.service.ts:132-149 | an upload is refused iff the format is unsupported, with the bad request |
| ImportStore.UploadResultSpec | backend/src/upload/upload.service.ts:18-72 | total = rows, successes + errors = total, the errors are the failing rows, and exactly one log recording file and result is appended |
| ImportStore.UploadSound | backend/src/upload/upload.service.ts:74-130 | an accepted upload keeps the invariants and adds one target account per success, none to the other table |
| ImportStore.FinishSound | backend/src/upload/upload.service.ts:118-127 | appending the log keeps the invariants and the account tables |
| ImportStore.ImportDatabase.constructor | backend/src/upload/upload.service.ts:16 | the database starts from the given tables |
| ImportStore.ImportDatabase.FindOrCreateGsiItem | backend/src/upload/upload.service.ts:151-203 | the new state and the id are those of the item lookup |
| ImportStore.ImportDatabase.FindOrCreateGroup | backend/src/upload/upload.service.ts:161-174 | the new state and the id are those of the group lookup |
| ImportStore.ImportDatabase.FindOrCreateSubgroup | backend/src/upload/upload.service.ts:176-190 | the new state and the id are those of the subgroup lookup |
| ImportStore.ImportDatabase.FindOrCreateBank | backend/src/upload/upload.service.ts:205-226 | the new state and the id are those of the bank lookup |
| ImportStore.ImportDatabase.FindOrCreatePerson | backend/src/upload/upload.service.ts:228-247 | the new state and the id are those of the person lookup |
| ImportStore.ImportDatabase.ImportPayableRow | backend/src/upload/upload.service.ts:29-57 | the new state and the error entry are those of one payable row |
| ImportStore.ImportDatabase.ImportReceivableRow | backend/src/upload/upload.service.ts:85-115 | the new state and the error entry are those of one receivable row |
| ImportStore.ImportDatabase.ImportPayableRows | backend/src/upload/upload.service.ts:27-58 | the state, count and error list equal the row loop over all rows |
| ImportStore.ImportDatabase.ImportReceivableRows | backend/src/upload/upload.service.ts:83-116 | the state, count and error list equal the row loop over all rows |
| ImportStore.ImportDatabase.UploadAccountsPayable | backend/src/upload/upload.service.ts:18-72 | refused without change for an unsupported file; otherwise the answer and the new state (loop plus log) are those of the upload |
| ImportStore.ImportDatabase.UploadAccountsReceivable | backend/src/upload/upload.service.ts:74-130 | refused without change for an unsupported file; otherwise the answer and the new state are those of the upload |
| Reports.Filter | backend/src/reports/reports.service.ts:218-219 | a filter keeps exactly the elements that pass, as a sub-multiset |
| Reports.FilterAgrees | backend/src/reports/reports.service.ts:164-187 | tests that agree on every element filter alike |
| Reports.SumSplits | backend/src/reports/reports.service.ts:217-220 | a sum is the sum of the selected part plus the rejected part |
| Reports.SumAppend | backend/src/reports/reports.service.ts:217 | the sum over an extended sequence adds the last amount (proof helper) |
| Reports.SumNonNegative | backend/src/reports/reports.service.ts:217 | non-negative amounts have a non-negative sum |
| Reports.SelectedSumBounded | backend/src/reports/reports.service.ts:217-220 | with non-negative amounts a selection's sum is at most the whole sum |
| Reports.Insert | backend/src/reports/reports.service.ts:43 | inserting adds exactly the element |
| Reports.SortBy | backend/src/reports/reports.service.ts:43 | sorting is a permutation |
| Reports.InOrderTotal | backend/src/reports/reports.service.ts:43 | of two keys one may precede the other (proof helper) |
| Reports.InsertSorted | backend/src/reports/reports.service.ts:43 | inserting into a sorted sequence keeps it sorted |
| Reports.SortedTail | backend/src/reports/reports.service.ts:43 | the tail of a sorted sequence is sorted (proof helper) |
| Reports.InsertBounded | backend/src/reports/reports.service.ts:43 | inserting an element above a bound keeps every element above it |
| Reports.SortedCons | backend/src/reports/reports.service.ts:43 | a head preceding every element of a sorted tail gives a sorted sequence (proof helper) |
| Reports.SortBySorted | backend/src/reports/reports.service.ts:43 | the sort is in order and a permutation |
| Reports.SameElements | backend/src/reports/reports.service.ts:43 | sequences with the same multiset have the same elements (proof helper) |
| Reports.SelectAndSort | backend/src/reports/reports.service.ts:54-82 | `where` then `orderBy`: exactly the selected rows, as a multiset, in order |
| Reports.PaidAccountsByBank | backend/src/reports/reports.service.ts:10-45 | exactly the PAGO payables matching bank, item and payment-date filters, each as often as stored (the multiset of the filtered table), latest payment first |
| Reports.PayableAccountsByBank | backend/src/reports/reports.service.ts:47-83 | exactly the payables matching the optional filters, each as often as stored, earliest due date first |
| Reports.ReceivableAccountsByBank | backend/src/reports/reports.service.ts:85-121 | exactly the receivables matching the optional filters, each as often as stored, earliest expected date first |
| Reports.NoFilterKeepsAll | backend/src/reports/reports.service.ts:56-67 | without filters the payable listing is a reordering of the whole table: every payable, each as often as stored |
| Reports.GlosasByPeriod | backend/src/reports/reports.service.ts:123-157 | exactly the GLOSADO receivables with a positive denial matching person and receipt-date filters, each as often as stored, latest receipt first |
| Reports.CashFlow | backend/src/reports/reports.service.ts:159-225 | the records whose bank matches and whose either date lies in the range, and the five totals over them |
| Reports.CashFlowPaidWithinPayable | backend/src/reports/reports.service.ts:217-220 | the payable total is the paid total plus the unpaid one; with non-negative amounts paid <= payable |
| Reports.CashFlowWithoutBounds | backend/src/reports/reports.service.ts:164-212 | without date bounds the cash flow is every record of the bank, every record when no bank is given |
| Reports.FilterKeepsAll | backend/src/reports/reports.service.ts:218-219 | a filter every element passes keeps the sequence |

## Left out

- Amounts read from a spreadsheet are kept as the cell text handed to `parseFloat`; JavaScript number parsing and floating point are not modelled. Elsewhere amounts are exact `real`s, not IEEE doubles.
- ImportParsing.ParseDate: the JavaScript native date parser (`new Date(text)`) is the `native` parameter, and "now" is the `now` parameter. `new Date(y, m, d)` is kept as the unnormalised triple `LocalDate(y, m, d)`: month and day overflow, time zones and out-of-range years are not modelled.
- ImportParsing.Upper: `toUpperCase` is modelled for ASCII and Latin-1 letters plus dotless i and long s. Other characters stay unchanged, and the multi-character mappings (such as ß to SS) are not modelled. The parsers only compare against ASCII names and `CONVÊNIO`, so this does not change their answers for those names.
- ImportParsing.DigitsValue is total (a non-digit counts as 0); it is only ever applied to digit runs.
- CSV and XLSX decoding (`csv-parse`, `XLSX.read`, `sheet_to_json`) is left out: an upload takes the parsed rows as a parameter, and every cell is text (non-string cells are not modelled).
- The only row failure modelled is the database refusing an Invalid Date. Other database failures are not modelled: constraint violations, connection errors and non-numeric amounts.
- Row identifiers are UUIDs generated by the database; the model takes fresh natural numbers from a counter. `findFirst` without `orderBy` is taken to return the first row in insertion order.
- Concurrency and transactions: the loops await every call in turn and nothing runs between them in the model.
- Payables.PayableStore: `create`, `findAll`, `update` and `remove` of the payable service are not part of this model, and neither are `create` and `findAll` of the receivable service. `create` and `findAll` pass straight through to the database. The payable `update` and `remove` first look the id up and answer not-found when it is missing, then write the given fields or delete; this is the same rule that `Receivables.ReceivableStore.Update` and `Remove` model for receivables.
- Receivables.ReceivableStore.Update: a DTO field set to explicit `null` (clearing a column) is not modelled; an absent field keeps the column.
- Receivables.ReceivableStore.Receive: the note is written as given, so an explicit `null` would clear it; the model only distinguishes an absent note (column kept) from a given text.
- Payables.PayableStore.Pay: the payment method and note are written as given, so an explicit `null` would clear them; the model only distinguishes an absent value (column kept) from a given text.
- Payables.PayableStore.PayBatch: the same holds for the payment method and note of a batch.
- Reports: `exportToExcel` (XLSX encoding) is left out. The source does not name its database; the model assumes that null dates sort after every date in ascending order and before every date in descending order. The order among rows with equal keys is not specified by the model.
- Common.Kind: the code answers the status conflicts with 400 (BadRequestException); the model follows the code rather than a separate conflict status.
- Relations included in the answers (`include: { gsiItem, bank, person }`) are not modelled; answers carry the record's own columns.
