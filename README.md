# Bookkeeping core of a small double-entry accounting desktop app

This project is a Dafny model of the bookkeeping engine of a Tkinter
accounting application. The engine reads one CSV store of transactions.
Each transaction has the columns Date, Description, Debit, Credit and
Amount. The engine derives these views from the store:

- **Accounts** (`accounts.dfy`, module `Accounts`):
  - the chart of fourteen accounts and their five categories;
  - the normal balance side of each category;
  - raw balances folded from the rows (the amount is added to the debit account and subtracted from the credit account);
  - the displayed side and magnitude of each balance;
  - the accounts grouped by category and sorted by name;
  - the per-category totals and the summary of all five categories.
- **General journal** (`journal.dfy`, module `Journal`, class `GeneralJournal`):
  - every complete row becomes a debit line followed by a credit line;
  - a search that walks the lines pair by pair;
  - a date-window filter;
  - debit and credit totals.
- **General ledger** (`ledger.dfy`, module `Ledger`, class `GeneralLedger`):
  - one entry per complete row, with a single running balance;
  - substring search;
  - totals.
- **Transaction store** (`records.dfy`, module `Records`, class `TransactionFile`):
  - the file is a header line plus record lines;
  - creating a missing file;
  - validate-then-append;
  - reading the file back as rows keyed by the header.
- **Balance sheet** (`balance_sheet.dfy`, module `BalanceSheet`, class `BalanceSheetView`):
  - the data that the refresh of the balance-sheet tab puts into its two lists and two total labels.

`common.dfy` (module `Common`) holds the shared vocabulary:

- rows, which are maps from column name to text;
- the store, which is absent or a sequence of rows;
- the complete-row filter;
- ASCII lower-casing;
- substring containment;
- dates;
- the two parser types.

Amounts are integers (cents). The number parser (`float`) and the date parser
(`strptime` with `%Y-%m-%d`) are passed in as functions that return `None`
when the text does not parse. Reading the CSV file is replaced by the `Store`
value, and whether the file exists becomes `Absent` versus `Present`. Methods
on the classes update their fields the way the source updates its
attributes. Each method is proved equal to a specification function. The
properties are lemmas about those functions.

## Model

| member | source | states |
|---|---|---|
| Accounts.ChartNamesDistinct | base/accounts_manager.py:7-31 | No two chart entries share a name, so every chart account has exactly one category |
| Accounts.LookupIn | base/accounts_manager.py:41-43 | A lookup is Unknown exactly when no table entry has the name; a known answer is the category of an entry with that name |
| Accounts.AccountType | base/accounts_manager.py:41-43 | A name outside the chart maps to Unknown, and only such a name does; a known category comes from the chart entry of that name |
| Accounts.NormalSide | base/accounts_manager.py:33-39 | The normal side is Debit exactly for Assets and Expenses, otherwise Credit |
| Accounts.GetNormalBalance | base/accounts_manager.py:45-48 | Unknown exactly for names outside the chart; Debit exactly for Assets and Expenses accounts; Credit exactly for Liabilities, Equities and Income accounts |
| Accounts.Post | base/accounts_manager.py:66-70 | The amount is added to the debit account and subtracted from the credit account; every other account keeps its balance; a row whose debit equals its credit nets to zero |
| Accounts.CalculateAccountBalances | base/accounts_manager.py:50-75 | The loop computes the raw-balance fold: rows lacking Debit, Credit or Amount are skipped; a missing store gives no balances; an amount that fails to parse ends the loop with the balances so far |
| Accounts.AccumulateIsNet | base/accounts_manager.py:60-70 | When every amount parses, each account's raw balance is the sum over all rows of what each row adds to that account |
| Accounts.BalancesOrderIndependent | base/accounts_manager.py:60-70 | Any reordering of the rows gives the same raw balances when every amount parses |
| Accounts.UnparseableAmountStops | base/accounts_manager.py:60-73 | A row with all three columns whose amount does not parse stops the fold; no row after it is posted |
| Accounts.BalancesSumToZero | base/accounts_manager.py:60-70 | Summed over distinct accounts covering every account touched, the raw balances add up to zero |
| Accounts.Display | base/accounts_manager.py:95-104 | The displayed balance is the absolute raw balance, never negative; the side is Credit exactly when the normal balance is Credit and the raw balance is non-zero |
| Accounts.ViewOf | base/accounts_manager.py:91-111 | An account's listed record carries its name, its normal balance, the absolute raw balance (zero when never posted) and the display side |
| Accounts.NameOrder | base/accounts_manager.py:113-115 | The name order used for sorting is total, transitive and antisymmetric, so with distinct names a sorted permutation is unique |
| Accounts.InsertByName | base/accounts_manager.py:113-115 | Inserting into a sorted list keeps it sorted and adds exactly that account |
| Accounts.SortByName | base/accounts_manager.py:113-115 | The sorted list is ordered by name and is a permutation of the input |
| Accounts.ChartViewsShape | base/accounts_manager.py:90-111 | Walking a table of distinct names lists each account of the category exactly once, each with its displayed balance, and lists nothing else |
| Accounts.GroupShape | base/accounts_manager.py:77-117 | Each category's list is sorted by name and holds every chart account of that category exactly once, whatever its activity; accounts outside the chart never appear |
| Accounts.ListAccounts | base/accounts_manager.py:79-111 | The five lists start empty, and each table entry is appended, in table order, to the list of its category |
| Accounts.SortGroups | base/accounts_manager.py:113-115 | Every list is replaced by its sorted version and no key is added or dropped |
| Accounts.AccountsByType | base/accounts_manager.py:77-117 | All five categories are present, each mapped to its sorted group computed from the raw balances of the store |
| Accounts.SignedTotalOfOneSide | base/accounts_manager.py:124-128 | When every account shows one normal side, the signed total is plus or minus the sum of the displayed magnitudes |
| Accounts.GroupTotal | base/accounts_manager.py:119-130 | A category's absolute signed total equals the sum of its displayed magnitudes and is non-negative |
| Accounts.SignedSum | base/accounts_manager.py:124-128 | Debit-shown balances are added and Credit-shown balances subtracted |
| Accounts.CategoryNamed | base/accounts_manager.py:121 | A category key names only the category with that label |
| Accounts.TotalByType | base/accounts_manager.py:119-130 | The result is non-negative; it is 0 for a name that is not a category; otherwise it is the sum of the displayed balances of that category's group |
| Accounts.AllAccountsSummary | base/accounts_manager.py:132-144 | The summary has all five categories, each with its sorted group and its total |
| Accounts.SummariseCategories | base/accounts_manager.py:135-142 | The loop gives each listed category its sorted group and the sum of that group's displayed balances |
| Accounts.Summary | base/accounts_manager.py:132-144 | The summary lists all five categories, each with its accounts sorted by name and the sum of their displayed magnitudes |
| Accounts.SummaryUnique | base/accounts_manager.py:132-144 | Any summary that lists the five categories with their groups and totals is that one summary |
| Common.CompleteRowsShape | base/transaction_records.py:46-50 | The complete rows are exactly the rows carrying all five columns, in their original order |
| Common.ContainsAt | base/general_journal.py:70-74 | The containment test holds exactly when the term occurs at some position of the text |
| Common.Lower | base/general_journal.py:55 | Lower-casing keeps the length and maps each character separately |
| Journal.DebitLine | base/general_journal.py:27-33 | The first line of a transaction copies the row's Date and Description, sits on the debit account, carries the amount in its Debit cell and leaves the Credit cell empty |
| Journal.CreditLine | base/general_journal.py:35-41 | The second line has no date or description, sits on the credit account, carries the amount in its Credit cell and leaves the Debit cell empty |
| Journal.JournalShape | base/general_journal.py:24-41 | The journal has two lines per complete row; lines 2k and 2k+1 are the debit and credit lines of the k-th complete row |
| Journal.JournalOfAppend | base/general_journal.py:24-41 | The journal of two row sequences in a row is the two journals in a row |
| Journal.GeneralJournal.constructor | base/general_journal.py:6-8 | A new journal holds the lines loaded from the store |
| Journal.GeneralJournal.LoadJournalEntries | base/general_journal.py:10-44 | After loading, the lines are the journal of the store; a missing store gives none |
| Journal.PairSearchSubseq | base/general_journal.py:56-89 | The search result keeps journal order and adds nothing |
| Journal.SearchOfLoadedJournal | base/general_journal.py:59-89 | On a loaded journal, the search returns both lines of exactly those rows with a date and a description whose date, description, debit account or credit account contains the term; it returns nothing else |
| Journal.GeneralJournal.SearchJournalEntries | base/general_journal.py:50-89 | An empty term returns the lines unchanged; otherwise the cursor loop computes the pair-wise search of the lower-cased term |
| Journal.SearchedRows | base/general_journal.py:64-75 | A row is selected exactly when it is complete, has a date and a description, and one of its four text cells contains the term; order is kept |
| Journal.SearchedRowsCount | base/general_journal.py:59-89 | Every copy of a selected row is returned: a selected row appears as often as in the store, an unselected one never |
| Journal.DatedWithin | base/general_journal.py:97-102 | A line is kept exactly when it has a date that parses and lies in [start, end]; order is kept |
| Journal.DatedWithinAppend | base/general_journal.py:98-102 | Filtering one more line appends that line exactly when it is in the window |
| Journal.WindowHoldsDebitLines | base/general_journal.py:98-102 | On a loaded journal the date window returns debit lines only, because credit lines carry no date |
| Journal.GeneralJournal.GetJournalEntriesByDateRange | base/general_journal.py:91-107 | The result is empty when a bound does not parse or any dated line's date does not parse; otherwise it is the in-window filter |
| Journal.CellValue | base/general_journal.py:118-127 | An empty cell, or one that does not parse, adds nothing; any other cell adds its amount |
| Journal.JournalBalances | base/general_journal.py:109-129 | On a loaded journal the debit total equals the credit total |
| Journal.GeneralJournal.GetTotals | base/general_journal.py:109-129 | The two totals sum the given lines, or the whole journal when no lines are given |
| Ledger.AmountOrZero | base/general_ledger.py:39-42 | An amount that does not parse counts as 0 |
| Ledger.EntryFor | base/general_ledger.py:44-55 | An entry's balance is the balance before it plus its amount |
| Ledger.LedgerFromStep | base/general_ledger.py:35-55 | The ledger from row i on begins with row i's entry when that row is complete; otherwise it skips the row |
| Ledger.LedgerOf | base/general_ledger.py:23-30 | A missing store gives an empty ledger |
| Ledger.LedgerMirrorsRows | base/general_ledger.py:35-55 | There is one entry per complete row, in order, and entry k copies the text cells and the parsed amount of the k-th complete row |
| Ledger.RunningBalance | base/general_ledger.py:26-53 | Entry k's balance is the opening balance plus the amounts of entries 0 to k |
| Ledger.FullLedgerTotals | base/general_ledger.py:78-87 | On the full ledger the amount total equals the last balance |
| Ledger.MatchingEntries | base/general_ledger.py:66-76 | An entry is kept exactly when its date, description, debit or credit contains the term; the kept entries are those of the ledger, with their balances |
| Ledger.MatchingEntriesCount | base/general_ledger.py:66-76 | Every copy of a matching entry is returned: a matching entry appears as often as in the ledger, any other never |
| Ledger.MatchingEntriesSubseq | base/general_ledger.py:66-76 | The search result keeps ledger order |
| Ledger.GeneralLedger.constructor | base/general_ledger.py:11-13 | A new ledger holds the entries loaded from the store |
| Ledger.GeneralLedger.LoadLedgerEntries | base/general_ledger.py:23-57 | After loading, the entries are the ledger of the store, with the running balance starting at 0 |
| Ledger.GeneralLedger.SearchEntries | base/general_ledger.py:62-76 | An empty term returns all entries; otherwise the result is the entries matching the lower-cased term |
| Ledger.GeneralLedger.GetTotals | base/general_ledger.py:78-87 | The result is the amount total and the last balance (0 when there is none); an empty argument stands for the whole ledger |
| Records.Validate | base/transaction_records.py:15-26 | Refusals in order: any empty field, then a date that does not parse, then an amount that does not parse; acceptance exactly when none applies |
| Records.ZipRow | base/transaction_records.py:44-46 | A line read under a header has exactly the header names that have a value in their position as keys |
| Records.ZipRowValues | base/transaction_records.py:44-46 | Each header name maps to the value in its position; a repeated name keeps the value of its last position with a value |
| Records.StandardRow | base/transaction_records.py:28-48 | A written record reads back, under the standard header, as the row of its five values |
| Records.RowsFrom | base/transaction_records.py:43-46 | Every record line is read, in file order, under the header |
| Records.Initialised | base/transaction_records.py:5-9 | A missing file becomes a file with the standard header and no records; an existing file is untouched; neither reads back differently |
| Records.AfterAdd | base/transaction_records.py:11-35 | A refused add leaves the file unchanged; an accepted one appends exactly one record line; a missing file is created with that line as its header |
| Records.ReadBackAppend | base/transaction_records.py:28-51 | Under the standard header one more record line reads back as one more transaction at the end |
| Records.ReadBackAfterAdd | base/transaction_records.py:11-51 | On a present file with the standard header, after an accepted add, reading back gives the earlier transactions followed by the new one |
| Records.AddTwiceReadsBackTwice | base/transaction_records.py:11-30 | On a present file with the standard header, adding the same transaction twice reads back two copies |
| Records.AddToMissingFile | base/transaction_records.py:28-30 | An add to a missing file reads back nothing |
| Records.Transactions | base/transaction_records.py:37-51 | A missing file reads back as no transactions |
| Records.StoreOf | base/transaction_records.py:40-46 | The file is absent to its readers exactly when it does not exist |
| Records.TransactionFile.Open | base/transaction_records.py:40-41 | The file object holds the state found on disk |
| Records.TransactionFile.InitialiseIfAbsent | base/transaction_records.py:6-9 | The file after start-up is the initialised file |
| Records.TransactionFile.AddTransaction | base/transaction_records.py:11-35 | The outcome is the validation verdict, and the new file state is the file after the add |
| Records.TransactionFile.GetAllTransactions | base/transaction_records.py:37-55 | The loop returns the complete rows in file order, or nothing for a missing file |
| BalanceSheet.SectionOf | base/balance_sheet.py:95-97 | A category missing from the summary counts as no accounts and a zero total |
| BalanceSheet.AccountLinesAt | base/balance_sheet.py:99-120 | There is one list row per account, in order, showing its name and displayed balance |
| BalanceSheet.SectionOfSummary | base/balance_sheet.py:93-97 | Each section read from the summary is the category's sorted group and its total |
| BalanceSheet.LinesNameGroup | base/balance_sheet.py:99-120 | Every list row drawn from a category names an account of that category and has an amount |
| BalanceSheet.AssetSideOfSummary | base/balance_sheet.py:99-122 | The Assets list holds only Assets accounts and every one of them; Total Assets is their summed displayed balance |
| BalanceSheet.LiabilitySideShape | base/balance_sheet.py:106-125 | The second list is, in order, the Liabilities header, the Liabilities accounts, the Equity header and the Equities accounts; its total is the sum of the two category totals |
| BalanceSheet.LiabilitySideOfSummary | base/balance_sheet.py:106-120 | The second list holds its two headers plus Liabilities and Equities accounts only, never Income or Expenses |
| BalanceSheet.LiabilitySideComplete | base/balance_sheet.py:106-120 | Every Liabilities and every Equities account of the chart appears on the second list with its displayed balance |
| BalanceSheet.LinesCoverGroup | base/balance_sheet.py:99-120 | Every chart account of a category has its row, with its displayed balance, among the rows drawn from that category |
| BalanceSheet.BalanceSheetView.constructor | base/balance_sheet.py:45-85 | The lists start empty and the totals start at zero |
| BalanceSheet.BalanceSheetView.Show | base/balance_sheet.py:88-126 | Both lists are cleared, then refilled: Assets rows; Liabilities header, accounts, Equity header, accounts; the two totals |
| BalanceSheet.BalanceSheetView.AppendAccounts | base/balance_sheet.py:99-120 | Appends one row per account to the chosen list and changes nothing else |
| BalanceSheet.BalanceSheetView.Populate | base/balance_sheet.py:87-126 | After a refresh the lists and totals are those of the accounts manager's summary of the store |

## Left out

- File system and CSV:
  - which path is tried first (`../transactions.csv` or `transactions.csv`) and `os.path.exists`: the model has a single store that is present or absent;
  - CSV quoting: a written record is assumed to read back as its five values;
  - encodings: text is a sequence of characters.
- `csv.DictReader` details:
  - a line shorter than the header gets `None` in its missing columns, so under the standard header the key tests of the source (base/accounts_manager.py:61, base/general_journal.py:25, base/general_ledger.py:36, base/transaction_records.py:47) never fail. The model treats those columns as absent and skips such a line everywhere, whereas in the source:
    - the balance fold ends there when the Amount column is missing, because `float(None)` raises and the error is caught at base/accounts_manager.py:72 (a short line always lacks Amount, the last column);
    - the journal writes its two lines with `None` cells;
    - the ledger records it with amount 0 (base/general_ledger.py:39-42);
    - `get_all_transactions` returns it with `None` cells;
    - both searches can fail on it with an uncaught `AttributeError` from `None.lower()`: the journal search when it reaches the credit line's missing account (base/general_journal.py:74), the ledger search at base/general_ledger.py:72-73. The model's skip removes these failures;
  - surplus values under the `None` key are not represented;
  - blank lines, which the reader skips, are not represented.
- `float()` and `datetime.strptime`: these are parameters. Amounts are exact integers, with no rounding, no NaN and no infinity. Dates compare by (year, month, day).
- Accounts.CalculateAccountBalances: the broad exception handler is modelled only for the parse failure of an amount, which ends the fold with the balances so far. A failure to read the file is not modelled.
- Lower-casing: only the ASCII letters are lowered. Python's `str.lower` also lowers other letters.
- Currency formatting (`₱{:,.2f}`), every widget, the error message box and all `print` diagnostics are not modelled.
- `get_all_journal_entries` (base/general_journal.py:46-48) and `get_all_entries` (base/general_ledger.py:59-60) return the field itself. They are the `journalEntries` and `ledgerEntries` fields of the classes.
- Ledger.GeneralLedger.GetTotals: the argument is a sequence. Passing `None` and passing an empty list both fall back to the whole ledger, so both are the empty sequence here.
- Journal.GeneralJournal.GetTotals: `None` is `Option.None`. A given empty list is totalled as empty, as in the source.
- Records.TransactionFile.AddTransaction: a refusal is returned as `Rejected(reason)` instead of being raised. The file is unchanged either way.
- Records.Validate: some descriptions of this system say the add also refuses a non-positive amount and a debit account equal to the credit account. The code does neither, and the model follows the code. It accepts both.
- Accounts.BalancesOrderIndependent: stated only when every amount the fold reads parses. Otherwise the first failing row cuts the fold, and the order of the rows matters (Accounts.UnparseableAmountStops).
- The window layout and form code of `base/main.py` is not part of this model.
