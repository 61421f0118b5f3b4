# gerenciador-de-gastos — a verified model of its financial logic

gerenciador-de-gastos is a personal finance tracker. Users register, log in, record income and
expense transactions with a category, and get a dashboard and a rule-based "AI" analysis of
their spending. The system has three parts:

- an Express back end: a transaction model over SQL, a transaction service, an insight engine and an authentication service;
- a serverless variant: a single Netlify function with an in-memory store, fake tokens and its own savings-rate analysis, plus a database layer with an in-memory fallback;
- a React front end: registration, login and new-transaction forms, and a hook that talks to the API.

This project models that logic in Dafny and proves what it promises. There is one module per
source file, plus four shared modules:

- `Wrappers`: `Option` and `Result`.
- `Text`: JavaScript's `trim`, the `\s` class, case mapping, `includes`, `split`/`join`, `String(n)` and `parseInt`.
- `Collections`: `filter`, `findIndex` and `find`.
- `Ledger`: per-type sums and the insertion-ordered category dictionary built with `acc[c] = (acc[c] || 0) + amount`. It also holds the stable descending sort applied to `Object.entries` of that dictionary.

Where the source changes state step by step, the model does too:

- The insight engine and the savings analysis are methods. They push onto their lists as the source does, and are proved equal to a specification function.
- The serverless store (`ServerlessApi.Store`) and the fallback store (`FallbackDatabase.FallbackStore`) are classes. They hold sequences and id counters.
- The SQL builders are methods that grow a statement and its parameter list.
- The forms' `validateForm` fills an error record one field at a time.

Pure code (token encoding, header parsing, normalisation, list updates, query strings) is
written as functions, with lemmas relating them.

Values are modelled as follows:

- Amounts are `real`.
- A transaction's type is `Income`, `Expense` or `Other`, because the routes that do not validate accept any string.
- Messages are modelled by identity (a tag plus the figures or category they format), not by wording.
- The database, the clock and the network are inputs: rows and change counts read back, `now`, `today`, and whether a submission succeeded.

## Model

Several functions are reference definitions and have no row of their own. Each one transcribes the source expression that the rows citing it model; those rows' members state their properties:
- in `AiAnalysis`: `Analyze`, `Measure`, `Rules`, `BalanceRule`, `CategoryRule`, `AverageRule` and `IncomeRule`;
- in `ServerlessApi`: `SavingsRate` and `BandOf`;
- in `TransactionModel`: `IsDateTime` and `Aggregate`;
- in `FallbackDatabase`: `EnvOr`.

| member | source | states |
|---|---|---|
| AiAnalysis.Divide | backend/src/routes/ai.ts:90 | A JavaScript division is finite exactly when the divisor is non-zero, and NaN exactly for 0/0 |
| AiAnalysis.GenerateIntelligentAnalysis | backend/src/routes/ai.ts:12-139 | The step-by-step analysis (totals, dictionaries, the four rule blocks, general suggestions, cut to six) equals the specification `Analyze` |
| AiAnalysis.PushBalanceRule | backend/src/routes/ai.ts:43-59 | The balance block appends exactly the balance rule's insight and suggestions to the two lists |
| AiAnalysis.PushCategoryRule | backend/src/routes/ai.ts:62-85 | The top-category block appends exactly the category rule's findings for the head of the sorted entries, and nothing for an empty list |
| AiAnalysis.PushAverageRule | backend/src/routes/ai.ts:88-99 | The average block appends exactly the average rule's findings |
| AiAnalysis.PushIncomeRule | backend/src/routes/ai.ts:102-111 | The income block appends exactly the income rule's findings |
| AiAnalysis.ApplyRules | backend/src/routes/ai.ts:39-111 | Starting from empty lists, the insights and suggestions are the four rules' outputs concatenated in source order |
| AiAnalysis.Take | backend/src/routes/ai.ts:133 | `slice(0, n)` keeps the first `min(n, length)` elements |
| AiAnalysis.AnalyzeRequest | backend/src/routes/ai.ts:144-153 | A missing transaction array is a 400; otherwise the analysis uses the given period or "30d", and its count is the array's length |
| AiAnalysis.ReportsAppend | backend/src/routes/ai.ts:39-111 | A concatenation reports a kind of finding exactly when one of its parts does |
| AiAnalysis.ReportsOne | backend/src/routes/ai.ts:39-111 | A list of at most one insight reports exactly that insight's kind |
| AiAnalysis.BalanceReports | backend/src/routes/ai.ts:43-59 | The balance rule reports overspending exactly when the balance is negative, and savings exactly when it is positive |
| AiAnalysis.CategoryReports | backend/src/routes/ai.ts:62-85 | The category rule reports dominance exactly above a 40% share, and a largest category exactly for shares above 25% up to 40% |
| AiAnalysis.AverageReports | backend/src/routes/ai.ts:92-99 | The average rule reports exactly when the mean exceeds 200 (never for NaN) |
| AiAnalysis.IncomeReports | backend/src/routes/ai.ts:102-111 | The income rule reports exactly when there is one income category |
| AiAnalysis.RulesReport | backend/src/routes/ai.ts:39-111 | The insight list reports each kind of finding exactly when its condition on the figures holds |
| AiAnalysis.AssemblyBounds | backend/src/routes/ai.ts:114-133 | Rules give at most four insights and six suggestions, so the cut to six keeps every rule suggestion, then the short-history hint, then general ones |
| AiAnalysis.CategoryMapsMatchTotals | backend/src/routes/ai.ts:13-36 | The totals are the per-type sums, the balance is their difference, and each dictionary sums to its type's total with exactly that type's categories as keys |
| AiAnalysis.SuggestionAssembly | backend/src/routes/ai.ts:114-133 | The suggestions are the rule suggestions in rule order, then the "< 5 transactions" hint, then the general ones, at most six |
| AiAnalysis.BalanceFirst | backend/src/routes/ai.ts:43-59 | A non-zero balance gives the first insight and the first two suggestions |
| AiAnalysis.BalanceRuleOutcome | backend/src/routes/ai.ts:43-59 | Deficit: one warning and its two suggestions first; surplus: one positive insight and its two; zero balance: neither |
| AiAnalysis.TopExpenseIsLargest | backend/src/routes/ai.ts:62-66 | With positive amounts the top expense entry is an occurring category holding its sum, and no category sums to more |
| AiAnalysis.CategoryRuleOutcome | backend/src/routes/ai.ts:62-85 | The largest expense category is judged by its share: above 40% a warning, above 25% a budget suggestion, otherwise nothing |
| AiAnalysis.AverageRuleOutcome | backend/src/routes/ai.ts:88-99 | The average rule fires exactly when an expense exists and the mean expense exceeds 200; with no expense the mean is NaN |
| AiAnalysis.IncomeRuleOutcome | backend/src/routes/ai.ts:102-111 | The single-income-source insight and its two suggestions appear exactly when all income is in one category |
| AiAnalysis.IncomeLast | backend/src/routes/ai.ts:102-111 | When the income rule fires, its two suggestions close the rule suggestions |
| AiAnalysis.EmptyInput | backend/src/routes/ai.ts:122-138 | An empty list gives zero totals, a NaN average, no insight, exactly the four hint and general suggestions, and "N/A" |
| AiAnalysis.FortyPercentDoesNotWarn | backend/src/routes/ai.ts:70-84 | Any top category holding exactly 40% of the expenses gets the budget suggestion and no warning, as the strict `> 40` demands |
| AiAnalysis.Categorize | backend/src/routes/ai.ts:170-203 | A missing or empty description is a 400; otherwise the first keyword of the table the lower-cased text contains gives the category, "Outros" when none does |
| Ledger.Add | backend/src/routes/ai.ts:27 | One accumulation step adds at most one entry to the dictionary |
| Ledger.AddSpec | backend/src/routes/ai.ts:26-29 | Adding makes `c` a key and no other, keeps keys distinct, grows only `c`'s value by `a` and the sum by `a`, and lengthens the dictionary only for a new key |
| Ledger.TotalAppend | backend/src/routes/ai.ts:13-15 | The sum of a concatenation is the sum of the sums |
| Ledger.TotalPositive | backend/src/routes/ai.ts:13-19 | A non-empty list of positive amounts has a positive total |
| Ledger.Tally | backend/src/routes/ai.ts:24-29 | The per-category dictionary has no more entries than the list has transactions |
| Ledger.TallyWellFormed | backend/src/routes/ai.ts:24-36 | The dictionary has distinct keys and its values sum to the list's total |
| Ledger.TallyKeys | backend/src/routes/ai.ts:24-36 | The dictionary's keys are exactly the categories occurring in the list |
| Ledger.TallyTotals | backend/src/routes/ai.ts:24-36 | Each key holds the sum of its category's amounts; a missing key reads as 0 |
| Ledger.TallyEntry | backend/src/routes/ai.ts:24-36 | Every entry holds the sum of its category's amounts |
| Ledger.TallyPositive | backend/src/routes/ai.ts:24-36 | With positive amounts every dictionary value is positive |
| Ledger.TallySingleKey | backend/src/routes/ai.ts:102 | The dictionary has exactly one key when the list is non-empty and has one category |
| Ledger.SortDesc | backend/src/routes/ai.ts:62-63 | Sorting keeps the number of entries; its order, permutation and stability are stated by `SortDescCorrect` and `SortDescStable` |
| Ledger.SortDescCorrect | backend/src/routes/ai.ts:62-63 | The sort orders by descending total, is a permutation, and keeps the sum |
| Ledger.SortDescStable | backend/src/routes/ai.ts:62-63 | The sort is stable: of two entries with equal totals, the one met first stays ahead, which decides the top category and the top-five cut among ties |
| Ledger.SortDescKeys | backend/src/routes/ai.ts:62-63 | Sorting keeps the keys and their distinctness |
| Ledger.SortedHeadIsMax | backend/src/routes/ai.ts:62-66 | The head of the sorted entries is a largest original entry |
| Ledger.SortedTallyShape | backend/src/routes/ai.ts:62-63 | The sorted dictionary is sorted, has distinct keys, and sums to the total |
| Ledger.SortedTallyEntries | backend/src/routes/ai.ts:62-63 | Each sorted entry holds its category's sum |
| Ledger.InsertPerm | backend/src/routes/ai.ts:63 | Insertion adds exactly one occurrence of the entry |
| Ledger.InsertSorted | backend/src/routes/ai.ts:63 | Insertion into descending entries keeps them descending |
| ServerlessApi.GenerateToken | netlify/functions/api.js:8 | A token starts with `fake_token_` |
| ServerlessApi.UserIdFromToken | netlify/functions/api.js:11-15 | A string without the `fake_token_` prefix gives no user id |
| ServerlessApi.TokenParts | netlify/functions/api.js:13 | A generated token splits into "fake", "token", the id's digits and the time's digits |
| ServerlessApi.TokenRoundTrip | netlify/functions/api.js:8-15 | Decoding a generated token gives back its user id, whatever the time |
| ServerlessApi.NoUnderscoreInDigits | netlify/functions/api.js:8 | A number's decimal text holds no `_`, so it stays one part of the split |
| ServerlessApi.RequireAuth | netlify/functions/api.js:44-59 | The header read is `authorization`, or `Authorization` when that is missing or empty; a success is a stored user, and the token is missing exactly when the header read is absent or lacks "Bearer " |
| ServerlessApi.IssuedTokenAuthenticates | netlify/functions/api.js:44-59 | With unique ids, a token issued to a stored user authenticates exactly that user, sent in `authorization` whatever `Authorization` holds, or in `Authorization` when `authorization` is missing or empty |
| ServerlessApi.ChosenTokenAuthenticates | netlify/functions/api.js:44-59 | Whichever header is read, an issued token in it authenticates its user |
| ServerlessApi.HeaderPrecedence | netlify/functions/api.js:45 | A non-empty `authorization` decides alone and `Authorization` is ignored; otherwise `Authorization` decides alone |
| ServerlessApi.FindById | netlify/functions/api.js:54 | With unique ids, finding a stored user's id gives that user |
| ServerlessApi.Me | netlify/functions/api.js:175-197 | `/auth/me` succeeds exactly when authentication does, with a stored user's profile, else 401 |
| ServerlessApi.Login | netlify/functions/api.js:131-172 | Login succeeds exactly when both fields are given and some user has that email and password; otherwise 400 for a missing field and 401 for no match |
| ServerlessApi.LoginFindsOwner | netlify/functions/api.js:145 | With unique emails, a stored user's credentials log in as that user |
| ServerlessApi.Store.constructor | netlify/functions/api.js:2-5 | Both arrays start empty and both counters at 1, a valid store |
| ServerlessApi.Store.Register | netlify/functions/api.js:77-128 | A missing field or a taken email or username is a 400 with the store unchanged; otherwise one user with the old counter as id is appended, the counter moves on, and the ids stay unique and ascending |
| ServerlessApi.Store.Push | netlify/functions/api.js:244-254 | Appending a transaction with the counter's id and a known user keeps the store valid |
| ServerlessApi.Store.CreateTransaction | netlify/functions/api.js:227-281 | Without authentication a 401; a falsy amount, type or category a 400; otherwise one transaction of the caller with the next id, null description or today's date when absent; nothing else changes |
| ServerlessApi.ListTransactions | netlify/functions/api.js:201-224 | `GET /transactions` gives the caller's transactions in stored order, or 401 |
| ServerlessApi.ListingIsExact | netlify/functions/api.js:204 | The listing holds none of another user's transactions and all of the caller's |
| ServerlessApi.Txns | netlify/functions/api.js:289-295 | The sums read one record per stored transaction |
| ServerlessApi.NewestIndex | netlify/functions/api.js:297-301 | The chosen position lies in the list |
| ServerlessApi.Latest | netlify/functions/api.js:301 | There is no last transaction exactly when the user has none |
| ServerlessApi.NewestIsLatest | netlify/functions/api.js:297-301 | The chosen transaction is created no earlier than any other, and strictly later than every one stored before it (a stable sort) |
| ServerlessApi.Dashboard | netlify/functions/api.js:287-316 | Over the user's transactions only: balance is income minus expenses, the count is theirs, and the last transaction is null exactly when they have none |
| ServerlessApi.SummaryOf | netlify/functions/api.js:289-316 | The summary of a list: balance, count, and null last transaction exactly for an empty list |
| ServerlessApi.DashboardRoute | netlify/functions/api.js:284-329 | The route succeeds exactly when authentication does, with the caller's dashboard |
| ServerlessApi.OwnedByAppend | netlify/functions/api.js:287 | Filtering by user after appending keeps the old listing and adds the new transaction only if it is the user's |
| ServerlessApi.DashboardIgnoresOthers | netlify/functions/api.js:287 | Another user's transaction leaves a user's dashboard unchanged |
| ServerlessApi.TotalsAppend | netlify/functions/api.js:289-295 | One more transaction adds its amount only to the total of its own type |
| ServerlessApi.LatestAppend | netlify/functions/api.js:297-301 | After appending, the newest is the new transaction unless an earlier one is at least as new |
| ServerlessApi.DashboardAfterOwn | netlify/functions/api.js:287-316 | An own new transaction is counted once, adds to its type's total only, and becomes the last unless an earlier one is as new |
| ServerlessApi.Round | netlify/functions/api.js:438 | `Math.round` gives the integer within half of the value, a half rounded up |
| ServerlessApi.Shares | netlify/functions/api.js:384-389 | One share per dictionary entry |
| ServerlessApi.BreakdownByCategory | netlify/functions/api.js:377-382 | The `forEach` fills the dictionary of the expenses |
| ServerlessApi.PushBand | netlify/functions/api.js:396-411 | Exactly one band insight and one band suggestion are appended, from the first threshold met |
| ServerlessApi.PushTopShare | netlify/functions/api.js:413-416 | The top-category insight is appended exactly when the breakdown is not empty |
| ServerlessApi.Classify | netlify/functions/api.js:418-431 | The pattern and risk chain gives `PatternOf` and `RiskOf` of the rate |
| ServerlessApi.AnalyzeSavings | netlify/functions/api.js:335-451 | The step-by-step analysis equals the specification `SavingsReportOf` |
| ServerlessApi.AnalyzeRoute | netlify/functions/api.js:332-462 | The route succeeds exactly when authentication does, with the analysis of the caller's transactions |
| ServerlessApi.OneBandPerReport | netlify/functions/api.js:337-431 | No transactions give the fixed newcomer reply; otherwise one band insight first, one band suggestion, a second insight exactly when an expense exists, and a non-newcomer pattern and risk |
| ServerlessApi.BandByTotals | netlify/functions/api.js:374-411 | The band read off the totals: at least 80% saving is spending at most a fifth of income, and so on; no income or spending it all is overspending |
| ServerlessApi.RateThreshold | netlify/functions/api.js:374 | With income, the rate reaches a threshold exactly when the balance reaches that share of the income |
| ServerlessApi.BandsAgree | netlify/functions/api.js:396-431 | The savings bands and the risk bands agree: 50% or more is low risk, overspending is high risk, low risk exactly from 40% and high risk exactly below 10% |
| ServerlessApi.SharesAt | netlify/functions/api.js:384-389 | Each share carries its entry's category, amount and percentage |
| ServerlessApi.SharesMirror | netlify/functions/api.js:384-389 | The shares mirror the entries one by one |
| ServerlessApi.PercentSumShares | netlify/functions/api.js:384-389 | With a positive expense total, the percentages add up to the entries' sum over that total, in percent |
| ServerlessApi.BreakdownIs | netlify/functions/api.js:365-390 | The breakdown is the shares of the sorted expense dictionary over the expense total |
| ServerlessApi.BreakdownOrdered | netlify/functions/api.js:384-390 | The breakdown is sorted by descending amount and names each category once |
| ServerlessApi.BreakdownPercent | netlify/functions/api.js:384-390 | With expenses, the breakdown's percentages add up to 100 |
| ServerlessApi.SortedTallySum | netlify/functions/api.js:377-390 | The sorted dictionary sums to the list's total |
| ServerlessApi.BreakdownExact | netlify/functions/api.js:377-390 | The breakdown names exactly the expense categories, each with the sum of its expenses |
| ServerlessApi.TallySharesExact | netlify/functions/api.js:377-390 | The shares of a sorted category dictionary name exactly the list's categories, each with its sum |
| FallbackDatabase.SupabaseConfigured | netlify/functions/database.js:32-35 | Supabase counts as configured exactly when both variables are set, non-empty and not the placeholders |
| FallbackDatabase.Created | netlify/functions/database.js:41-45 | A new record has the creation time, the given fields, the fresh id unless the data carries one, and no other field |
| FallbackDatabase.Overlay | netlify/functions/database.js:138 | The update's fields win and every other field is kept |
| FallbackDatabase.AppendFresh | netlify/functions/database.js:42-46 | Appending a record with the counter's id and moving the counter on keeps ids ascending |
| FallbackDatabase.RemoveKeepsAscending | netlify/functions/database.js:159 | Splicing one record out keeps ids ascending |
| FallbackDatabase.ReplaceKeepsAscending | netlify/functions/database.js:138 | Replacing a record by one with the same id keeps ids ascending |
| FallbackDatabase.FallbackStore.constructor | netlify/functions/database.js:26-29 | Empty arrays and counters at 1, ids trivially ascending |
| FallbackDatabase.FallbackStore.CreateUser | netlify/functions/database.js:38-48 | One user with the counter's id is appended and the counter moves on, with no duplicate-email check; transactions unchanged |
| FallbackDatabase.FallbackStore.FindUserBy | netlify/functions/database.js:63-83 | `findUserByEmail` (key `email`) and `findUserById` (key `id`): some user exactly when one has that value, and then the first such user |
| FallbackDatabase.FallbackStore.CreateTransaction | netlify/functions/database.js:96-106 | One transaction with the counter's id is appended and the counter moves on, keeping ids ascending |
| FallbackDatabase.FallbackStore.UserTransactions | netlify/functions/database.js:117-121 | Only transactions of that user, drawn from the store |
| FallbackDatabase.FallbackStore.UpdateTransaction | netlify/functions/database.js:133-142 | The first transaction with the id is overlaid in place and returned; others and the length unchanged; not found is the error with nothing changed |
| FallbackDatabase.FallbackStore.DeleteTransaction | netlify/functions/database.js:154-163 | The first transaction with the id is spliced out and returned; not found is the error with nothing changed |
| FallbackDatabase.UserListingExact | netlify/functions/database.js:120 | The listing holds every transaction of the user and only those; the stored order is kept by `ListingAfterCreate` and `Collections.FilterAppend` |
| FallbackDatabase.ListingAfterCreate | netlify/functions/database.js:104-120 | Another user's new transaction leaves a listing as it was; an own one joins its end |
| TransactionService.NormalizeCategory | backend/src/services/TransactionService.ts:209-211 | The normalised category is as long as the trimmed one |
| TransactionService.NormalizedIsTrimmed | backend/src/services/TransactionService.ts:209-211 | The normalised category has no white space at either end |
| TransactionService.NormalizeIdempotent | backend/src/services/TransactionService.ts:209-211 | Normalising twice is normalising once |
| TransactionService.NormalizeEmpty | backend/src/services/TransactionService.ts:209-211 | The result is empty exactly when the category is all white space |
| TransactionService.NormalizeIgnoresCase | backend/src/services/TransactionService.ts:209-211 | Upper- and lower-cased spellings normalise alike |
| TransactionService.TrimRecase | backend/src/services/TransactionService.ts:210 | Trimming commutes with case mapping |
| TransactionService.Abs | backend/src/services/TransactionService.ts:43 | `Math.abs` is non-negative and is the value or its negation |
| TransactionService.PrepareCreate | backend/src/services/TransactionService.ts:37-48 | Invalid data is refused; otherwise the category is normalised, the amount made absolute, a falsy date replaced by now, the rest kept |
| TransactionService.CreateTransaction | backend/src/services/TransactionService.ts:35-51 | Refused exactly when the schema rejects; otherwise the inserted values are the user, the type, the amount, the normalised category, the description or NULL, the date or now, and now as both `created_at` and `updated_at` |
| TransactionService.BlankCategoryStoredEmpty | backend/src/services/TransactionService.ts:37-40 | Any non-empty category of white space only, with valid other fields, passes `min(1)` and is stored as the empty category the schema itself refuses |
| TransactionService.PrepareUpdate | backend/src/services/TransactionService.ts:130-140 | Invalid data is refused; a truthy category is normalised and a defined amount made absolute; every other field is kept |
| TransactionService.UpdateTransaction | backend/src/services/TransactionService.ts:129-143 | Refused when the schema rejects or no field is defined; otherwise exactly the defined columns are assigned, then `updated_at` |
| TransactionService.SameColumns | backend/src/services/TransactionService.ts:133-140 | Preparing an update keeps which fields are defined, so the same columns are assigned |
| TransactionService.GetTransactions | backend/src/services/TransactionService.ts:70-83 | A falsy limit reads 50 and a falsy offset 0; the total is the row count; more exactly when the rows fill the limit |
| TransactionService.LimitedPage | backend/src/services/TransactionService.ts:70-83 | With a truthy limit honoured by the database, the total stays within it and `hasMore` means a full page |
| TransactionService.DefaultLimitNotApplied | backend/src/services/TransactionService.ts:70-73 | Without a truthy limit no LIMIT is bound, yet the reply says 50 |
| TransactionService.Average | backend/src/services/TransactionService.ts:109-115 | With rows, average times count is the total; without rows it is 0 |
| TransactionService.SortAndLimit | backend/src/services/TransactionService.ts:231-235 | Sorting and cutting keeps the first `min(5, length)` entries |
| TransactionService.CalculateTopCategories | backend/src/services/TransactionService.ts:213-241 | The two rankings are the sorted, cut dictionaries of income and of every other type |
| TransactionService.CategoryTotals | backend/src/services/TransactionService.ts:217-229 | The `forEach` builds the income dictionary and the dictionary of all non-income transactions |
| TransactionService.TallyStep | backend/src/services/TransactionService.ts:224-228 | Each transaction is added to exactly one of the two dictionaries |
| TransactionService.TopRanking | backend/src/services/TransactionService.ts:231-235 | At most five entries, descending, distinct; with five categories or fewer none is left out and the sum is the total |
| TransactionService.TopEntries | backend/src/services/TransactionService.ts:231-235 | Every ranked category occurs and holds its sum |
| TransactionService.TopExcluded | backend/src/services/TransactionService.ts:231-235 | A category left out sums to no more than the fifth entry |
| TransactionService.GetFinancialSummary | backend/src/services/TransactionService.ts:102-125 | The averages divide the summary totals by the counts of income and expense rows, and the rankings are `calculateTopCategories` |
| TransactionService.AverageIsMean | backend/src/services/TransactionService.ts:106-115 | When the summary matches the rows, each average times its count is its type's total |
| TransactionService.MonthFigures | backend/src/services/TransactionService.ts:195-202 | A month's entry holds its rows' sums, their difference and their count |
| TransactionService.GetMonthlyStats | backend/src/services/TransactionService.ts:180-205 | Exactly twelve entries, months 1 to 12 in order with their names, each with its month's figures |
| TransactionService.StatsFigures | backend/src/services/TransactionService.ts:195-202 | Entries made from each month's summary carry the month, the name and the figures |
| TransactionService.DescriptionText | backend/src/services/TransactionService.ts:267 | A present description is written as itself |
| TransactionService.DuplicateData | backend/src/services/TransactionService.ts:263-269 | The copy keeps type, amount and category, appends " (cópia)" to the description and dates it now |
| TransactionService.DuplicateTransaction | backend/src/services/TransactionService.ts:257-272 | Nothing without an original; otherwise accepted exactly when the copy is valid, inserting for the same user the original's type, amount and normalised category, the description with " (cópia)", and now as date, `created_at` and `updated_at` |
| TransactionService.DuplicateAccepted | backend/src/services/TransactionService.ts:257-272 | A valid stored row copied at a valid time is accepted, and normalising its category a second time changes nothing |
| TransactionModel.SchemasAgree | backend/src/models/Transaction.ts:5-14 | Valid to create is valid to update with type, amount and category; an empty update is valid and an empty creation is not |
| TransactionModel.CreateValidMeans | backend/src/models/Transaction.ts:5-11 | A valid new transaction has a known type, a positive amount and a non-empty category |
| TransactionModel.SqlHoles | backend/src/models/Transaction.ts:61-94 | Each fragment's text holds exactly its placeholders |
| TransactionModel.RenderCount | backend/src/models/Transaction.ts:61-94 | The rendered statement's `?` count is the sum of its fragments' placeholders |
| TransactionModel.AlignedText | backend/src/models/Transaction.ts:96 | An aligned statement's text has as many `?` as values |
| TransactionModel.BoundCount | backend/src/models/Transaction.ts:61-94 | `findByUserId` binds the user and one value per truthy filter |
| TransactionModel.AddFilter | backend/src/models/Transaction.ts:64-82 | One step appends a clause and its value exactly when the filter is truthy |
| TransactionModel.WhereClauses | backend/src/models/Transaction.ts:61-82 | The statement is the user's selection followed by the type, category, start-date and end-date clauses, each present exactly when its filter is truthy; the values are the user then those filters', aligned |
| TransactionModel.FindByUserId | backend/src/models/Transaction.ts:61-97 | The statement is the selection, each truthy filter's own clause in order, ORDER BY, then LIMIT for a truthy limit and OFFSET after it for a truthy offset; the values follow the same order; aligned |
| TransactionModel.AddPaging | backend/src/models/Transaction.ts:84-94 | Appends LIMIT exactly for a truthy limit and OFFSET after it exactly for a truthy offset too, each with its value, keeping the statement aligned |
| TransactionModel.AssignmentsMatch | backend/src/models/Transaction.ts:112-117 | Each defined entry gives one assignment and one value |
| TransactionModel.DefinedEmpty | backend/src/models/Transaction.ts:119-121 | No value is bound exactly when no field is defined |
| TransactionModel.JoinMarks | backend/src/models/Transaction.ts:127 | Joining assignments with commas keeps one placeholder each |
| TransactionModel.CollectDefined | backend/src/models/Transaction.ts:112-117 | The loop collects one assignment and one value per defined entry, in order |
| TransactionModel.Update | backend/src/models/Transaction.ts:108-127 | No defined field fails; otherwise the defined fields in schema order, then `updated_at` bound to now, then the id and user id; aligned |
| TransactionModel.MatchingOwned | backend/src/models/Transaction.ts:143 | A statement keyed by id and user touches a row exactly when the user owns it |
| TransactionModel.UpdateResult | backend/src/models/Transaction.ts:131-138 | Null exactly when no row changed; otherwise the row read back |
| TransactionModel.DeleteMeansOwned | backend/src/models/Transaction.ts:142-146 | Delete answers true exactly when the user owned that transaction |
| TransactionModel.UpdateNullMeansNotOwned | backend/src/models/Transaction.ts:129-133 | Update gives null exactly when the user owns no such transaction |
| TransactionModel.OrZero | backend/src/models/Transaction.ts:180-181 | A NULL column reads as 0, any other value as itself |
| TransactionModel.SummaryOf | backend/src/models/Transaction.ts:180-189 | Missing sums and counts become 0 and the balance is income minus expense |
| TransactionModel.SummaryOfRows | backend/src/models/Transaction.ts:158-189 | For the selected rows the summary is the income and expense sums, their difference and the count |
| TransactionModel.SummaryText | backend/src/models/Transaction.ts:158-165 | The summary selection is one `SELECT` of the income sum, the expense sum and the row count from `transactions` for the user, word for word |
| TransactionModel.SummaryStatement | backend/src/models/Transaction.ts:158-176 | The statement is the summary selection (`SummaryText`) followed by the start-date and end-date clauses, each present exactly when its bound is truthy, with their values after the user's; aligned |
| TransactionModel.InsertParams | backend/src/models/Transaction.ts:32-43 | Eight values: the user, the fields, the date or now, and now twice |
| AuthService.ExtractTokenFromHeader | backend/src/services/AuthService.ts:34-45 | A token comes only from a header that is the scheme, one space and that token without spaces |
| AuthService.ExtractBearer | backend/src/services/AuthService.ts:39-44 | "Bearer " followed by a token without spaces gives that token |
| AuthService.ExtractIff | backend/src/services/AuthService.ts:34-45 | The header parses to a token exactly when it is "Bearer " and that space-free token |
| AuthService.ExtractEdgeCases | backend/src/services/AuthService.ts:39-44 | A double space, "bearer" and "Basic" give null; "Bearer " gives the empty token |
| UseTransactions.BuildListQuery | frontend/src/hooks/useTransactions.ts:55-61 | The parameters appended one filter at a time are the list query |
| UseTransactions.BuildSummaryQuery | frontend/src/hooks/useTransactions.ts:87-89 | The two date parameters appended one at a time are the summary query |
| UseTransactions.AppendIfGiven | frontend/src/hooks/useTransactions.ts:56 | A pair is appended exactly for a truthy text filter |
| UseTransactions.AppendIfNonZero | frontend/src/hooks/useTransactions.ts:60 | A pair is appended exactly for a truthy number filter |
| UseTransactions.Get | frontend/src/hooks/useTransactions.ts:55 | `get` finds a value exactly when some pair has the name |
| UseTransactions.ListQueryCarriesFilters | frontend/src/hooks/useTransactions.ts:55-61 | Each filter is read back under its name exactly when truthy, with its value |
| UseTransactions.ListQueryOrdered | frontend/src/hooks/useTransactions.ts:55-61 | Each name comes at most once, in the order type, category, dates, limit, offset |
| UseTransactions.QueryString | frontend/src/hooks/useTransactions.ts:63 | The query string is empty exactly when no pair was appended |
| UseTransactions.UrlShape | frontend/src/hooks/useTransactions.ts:63 | The URL is the bare path exactly when no pair was appended; otherwise it extends the path |
| UseTransactions.ListUrlHasQueryIffFiltered | frontend/src/hooks/useTransactions.ts:55-63 | The list URL has a query exactly when some filter is truthy |
| UseTransactions.SummaryUrlHasQueryIffFiltered | frontend/src/hooks/useTransactions.ts:87-91 | The summary URL has a query exactly when a date is truthy |
| UseTransactions.AuthorizationValue | frontend/src/hooks/useTransactions.ts:29 | The header is empty exactly when there is no token |
| UseTransactions.AuthorizationRoundTrip | frontend/src/hooks/useTransactions.ts:29 | The back end reads the stored token back out of the header, and none when there is none |
| UseTransactions.AfterCreate | frontend/src/hooks/useTransactions.ts:140 | The created transaction comes first and the old list is the tail |
| UseTransactions.AfterUpdate | frontend/src/hooks/useTransactions.ts:170-172 | Same length and order; exactly the entries with the id are replaced |
| UseTransactions.AfterDelete | frontend/src/hooks/useTransactions.ts:199 | No entry with the id remains, and only old entries do |
| UseTransactions.DeleteKeepsOthers | frontend/src/hooks/useTransactions.ts:199 | Every entry with another id is kept, and a list without the id is unchanged |
| UseTransactions.DeleteIdempotent | frontend/src/hooks/useTransactions.ts:199 | Deleting twice is deleting once |
| UseTransactions.DeleteUndoesCreate | frontend/src/hooks/useTransactions.ts:140 | Deleting a newly created transaction with a fresh id restores the list |
| UseTransactions.DeleteAfterUpdate | frontend/src/hooks/useTransactions.ts:170-172 | An update keeping the id changes nothing a later delete of that id sees |
| UseTransactions.UpdateIdempotent | frontend/src/hooks/useTransactions.ts:170-172 | Applying the same update twice is applying it once |
| FormErrors.EmailIff | frontend/src/pages/Register.tsx:29 | The scan accepts exactly the strings the email pattern matches |
| FormErrors.EmailIsTrimmed | frontend/src/pages/Register.tsx:29 | A matching address has no surrounding white space |
| FormErrors.BlankIsNoEmail | frontend/src/pages/Register.tsx:27-29 | A blank string never matches |
| FormErrors.EmailCheck | frontend/src/pages/Register.tsx:27-31 | The address has a message exactly when it does not match the pattern |
| FormErrors.ClearError | frontend/src/pages/Register.tsx:84-86 | Same keys; the field's message is no longer shown; other messages kept; an unshown message leaves the record as it was |
| FormErrors.Note | frontend/src/pages/Register.tsx:21-25 | One step records the field's message exactly when there is one |
| FormErrors.ValidatedKeys | frontend/src/pages/Register.tsx:18-47 | The record names only fields some check produced a message for |
| FormErrors.ValidatedReports | frontend/src/pages/Register.tsx:18-47 | With one check per field, each field's entry is exactly its check's message |
| FormErrors.ValidatedEmpty | frontend/src/pages/Register.tsx:45-46 | The record is empty exactly when no check produced a message |
| FormErrors.ValidatedSome | frontend/src/pages/Register.tsx:18-47 | A check with a message puts its field in the record |
| FormErrors.DetailsToErrors | frontend/src/pages/Register.tsx:66-70 | The loop builds the record of the back end's details |
| FormErrors.DetailsKeys | frontend/src/pages/Register.tsx:66-70 | The record has a key for exactly the fields some detail names |
| FormErrors.DetailsLastWins | frontend/src/pages/Register.tsx:66-70 | Each field holds the message of the last detail naming it |
| RegisterPage.NameCheck | frontend/src/pages/Register.tsx:21-25 | The name has a message exactly when its trimmed length is under 2 |
| RegisterPage.PasswordCheck | frontend/src/pages/Register.tsx:33-37 | The password has a message exactly when shorter than 6 |
| RegisterPage.ConfirmCheck | frontend/src/pages/Register.tsx:39-43 | The confirmation has a message exactly when empty or different from the password |
| RegisterPage.AcceptableIff | frontend/src/pages/Register.tsx:18-47 | The page accepts a form exactly when no field has a message |
| RegisterPage.ValidateForm | frontend/src/pages/Register.tsx:18-47 | The record is the four checks noted in order, and the form is valid exactly when the record is empty, which is when the page accepts it |
| RegisterPage.ValidateReports | frontend/src/pages/Register.tsx:18-47 | Each field's entry is exactly its own check's message |
| RegisterPage.ValidateKeys | frontend/src/pages/Register.tsx:18-47 | No field but the four appears in the record |
| RegisterPage.AcceptedSubmission | frontend/src/pages/Register.tsx:58 | An accepted form submits its address unchanged, a name of at least two characters and the password as typed |
| RegisterPage.HandleChange | frontend/src/pages/Register.tsx:79-87 | The edited field takes the value, the others are kept, and its message is cleared |
| RegisterPage.ChangeKeepsOtherErrors | frontend/src/pages/Register.tsx:84-86 | Editing one field leaves every other field's message as it was |
| FormErrors.RequiredCheck | frontend/src/pages/Login.tsx:25-27 | The login password has the required message exactly when empty, with no length rule; the dialog's date check (`NewTransactionModal.tsx:67-69`) is the same rule |
| LoginPage.ValidateForm | frontend/src/pages/Login.tsx:16-31 | The record is the two checks noted in order, and the form is valid exactly when the record is empty, which is when the page accepts it |
| LoginPage.ValidateReports | frontend/src/pages/Login.tsx:16-31 | Each field's entry is exactly its own check's message |
| LoginPage.ValidateKeys | frontend/src/pages/Login.tsx:16-31 | Only the email and password fields appear in the record |
| LoginPage.SurroundingSpaceRejected | frontend/src/pages/Login.tsx:19-23 | A matching address with a space before or after gets the format message |
| LoginPage.AcceptedSubmission | frontend/src/pages/Login.tsx:42 | An accepted form submits the address and the password exactly as typed |
| LoginPage.HandleChange | frontend/src/pages/Login.tsx:63-71 | The edited field takes the value, the other is kept, and its message is cleared |
| NewTransactionModal.SuggestedCategories | frontend/src/components/NewTransactionModal.tsx:122-129 | The list starts with the type's defaults and no later entry is a default |
| NewTransactionModal.SuggestionsCover | frontend/src/components/NewTransactionModal.tsx:122-129 | A category is suggested exactly when it is a default or a user category |
| NewTransactionModal.SuggestionsKeepUserOrder | frontend/src/components/NewTransactionModal.tsx:124-128 | The tail is the user categories without the defaults, in the user's order |
| NewTransactionModal.AmountCheck | frontend/src/components/NewTransactionModal.tsx:59-61 | The amount has a message exactly when it is not positive |
| NewTransactionModal.CategoryCheck | frontend/src/components/NewTransactionModal.tsx:63-65 | The category has a message exactly when both it and the custom category are empty |
| NewTransactionModal.ValidateForm | frontend/src/components/NewTransactionModal.tsx:56-73 | The record is the three checks noted in order, and the form is valid exactly when the record is empty, which is when the dialog accepts it |
| NewTransactionModal.ValidateReports | frontend/src/components/NewTransactionModal.tsx:56-73 | The three entries are exactly their checks' messages, and no other field appears |
| NewTransactionModal.SubmittedCategory | frontend/src/components/NewTransactionModal.tsx:85 | The custom category wins when given, else the chosen one |
| NewTransactionModal.AcceptedSubmission | frontend/src/components/NewTransactionModal.tsx:83-87 | An accepted form submits its type, amount and description, a non-empty category and its own date |
| NewTransactionModal.HandleClose | frontend/src/components/NewTransactionModal.tsx:98-110 | The dialog resets to an expense of 0 with no category or description, today's date, no custom category and no errors |
| NewTransactionModal.ResetIsNotAcceptable | frontend/src/components/NewTransactionModal.tsx:98-110 | A reset dialog cannot be submitted: amount and category are reported |
| NewTransactionModal.SubmitSendsIffAcceptable | frontend/src/components/NewTransactionModal.tsx:76-95 | Data is sent exactly when the form is accepted; otherwise the form is kept and the messages shown |
| NewTransactionModal.HandleInputChange | frontend/src/components/NewTransactionModal.tsx:113-119 | Only the named field changes and only its message is cleared |
| NewTransactionModal.ChangeKeepsOtherErrors | frontend/src/components/NewTransactionModal.tsx:116-118 | Editing one field leaves every other field's message as it was |
| Text.Trim | frontend/src/pages/Register.tsx:21 | `trim` leaves no white space at either end and never lengthens the string |
| Text.JoinSplit | netlify/functions/api.js:13 | Joining the parts of a split gives back the string |
| Text.DigitsRoundTrip | netlify/functions/api.js:8 | Reading back a number's decimal digits gives the number |
| Text.ParseIntNatToString | netlify/functions/api.js:14 | `parseInt` of a number's decimal text gives the number |
| Collections.FilterKeeps | frontend/src/hooks/useTransactions.ts:199 | Filtering keeps every element that satisfies the predicate |
| Collections.FindIndex | netlify/functions/database.js:136 | The first index whose element satisfies the predicate, or none when no element does |

## Left out

- I/O and side effects are not modelled:
  - HTTP plumbing: the handler dispatch, CORS headers and JSON wrapping in `netlify/functions/api.js`, the Express routers and the health check;
  - `fetch`, `localStorage`, `window.location`, toasts and navigation in the front end;
  - console logging.
- The OpenAI client built in `backend/src/routes/ai.ts` is never called and is not modelled.
- Persistence drivers are not modelled:
  - the SQL database behind `backend/src/models/Transaction.ts`: its replies (rows, change counts, the summary row) are inputs;
  - the Supabase branches of `netlify/functions/database.js`, `initializeTables` and its `getStats`.
- JSON Web Tokens, bcrypt and the Express auth middleware are foreign libraries and are not part of this model.
- Clocks are parameters: `Date.now()`, `new Date().toISOString()`, today's date, the form date's ISO conversion in the dialog, and the month date ranges of `getMonthlyStats`.
- `getMonthlyStats` takes the rows each month's range selects as an input function; computing the range from the year is not modelled.
- Number formatting and parsing are not modelled:
  - `toFixed`, message wording and the `confidence` constant's use;
  - `parseFloat` of a request amount: amounts arrive as numbers;
  - `parseInt`'s hexadecimal prefix and non-decimal text.
- Floating point is not modelled: amounts are exact reals, so sums have no rounding error.
- The in-form amount is a number, so the NaN that `!formData.amount` would also catch is not modelled.
- JavaScript objects used as dictionaries keep insertion order. Integer-like keys, which `Object.entries` lists first, are not modelled.
- Case mapping covers Basic Latin and the Latin-1 letters that map one to one. Other Unicode case rules and UTF-16 code units are not modelled.
- The zod schemas are modelled as predicates over already-typed fields. A value of the wrong JSON type is rejected before these rules, and that rejection is not modelled.
- SQL text: the line breaks and indentation of multi-line literals are written as single spaces.
- Query strings are written without URL percent-encoding.
- Fallback records hold JSON scalars only; nested values in the spread objects are not modelled.
- `getCategories`, `getTransactionById` and `canDeleteTransaction` of the service are not modelled, nor `getCategories` and `findById` of the model. They only pass a database reply through, or answer true whenever a row exists.
- The dialog's category select, its "custom" option toggle, the `isOpen` render guard and the loading flags are rendering and are not modelled.
- `Ledger.Add`: categories are modelled as own keys of an empty dictionary. The source's dictionaries are plain `{}` objects read through `acc[c] || 0`. A category named after an `Object.prototype` member (`constructor`, `toString`, `valueOf`, `hasOwnProperty`, `__proto__`, …) reads the inherited value instead of `undefined`. The sum then becomes a concatenated string. For `__proto__`, the assignment of a non-object is ignored and the category disappears.
- `Ledger.Tally`: same as `Ledger.Add`. `Ledger.TallyWellFormed`, `Ledger.TallyKeys`, `Ledger.TallyTotals` and `Ledger.TallyEntry` hold for the source only when no category is such an inherited name.
- `TransactionService.CategoryTotals`: the loops of `backend/src/services/TransactionService.ts:225` and `:227` share the restriction of `Ledger.Add`. So do `TransactionService.TopEntries` and `TransactionService.TopExcluded`.
- `ServerlessApi.BreakdownByCategory`: the loop of `netlify/functions/api.js:381` shares the restriction of `Ledger.Add`. So do `ServerlessApi.BreakdownExact` and `ServerlessApi.BreakdownPercent`.
- `AiAnalysis.GenerateIntelligentAnalysis`: the dictionaries of `backend/src/routes/ai.ts:27` and `:34` share the restriction of `Ledger.Add`. So does `AiAnalysis.CategoryMapsMatchTotals`. In the source, an inherited name makes the top share NaN, so no category insight appears.
- `FormErrors.DetailsToErrors`: a detail whose field is `__proto__` is dropped by the source's object assignment. The model records it like any other field.
- `AiAnalysis.CategoryRuleOutcome`: stated only for positive amounts (the schema's rule). With zero or negative amounts the share may be infinite or NaN; `AiAnalysis.CategoryReports` covers those cases rule by rule.
- `AiAnalysis.TopExpenseIsLargest`: also stated only for positive amounts, for the same reason.
