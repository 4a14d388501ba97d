# Financial dashboard calculations

This project models the computations behind four cards of the personal-finance
dashboard:

- **Goal Management Hub** (`Goals`). It computes:
  - the progress bar of a savings goal, capped at 100 %;
  - the time-to-goal projection at a monthly contribution of $300;
  - the emergency-fund calculator dialog;
  - the "Goal Overview" figures: active goals, total target, total saved and remaining.
- **Expense Analyzer** (`Expenses`). It covers:
  - the category filter and the grand total;
  - the per-category totals over the eight fixed categories, sorted by decreasing total with ties kept in declaration order;
  - the icon and colour lookups, which fall back for unknown ids.
- **AI Agent Center** (`AgentChat`). The chat panel is a class holding:
  - the message log;
  - the input text;
  - the selected agent;
  - the replies still due.

  A send of blank text is ignored. Any other send appends the user's message, clears the input and schedules a reply. The reply arrives as a separate step and is tagged with the agent selected at send time. Each agent's conversation is a filtered view of the log.
- **Financial Health Score** (`HealthScore`). The score is banded at 80 and 60, and the band picks both the colour of the score and the status badge.

`Seqs` holds `filter`, `reduce`-as-sum and `find` as functions over sequences, with the lemmas the other modules use. `Wrappers` holds `Option`.

Money is modelled as `real`. The calculations are exact, so JavaScript's binary floating-point rounding does not appear.

What the code does, which a reader might not expect:

- Progress is capped at 100 only. A negative current amount gives a negative percentage.
- An expense whose category id is unknown counts in the grand total but in no category bucket. There is no "uncategorized" entry.
- No input is validated. There are no error results.
- No debt-payoff simulator exists. Its figures are constants in the charts.

## Model

| member | source | states |
|---|---|---|
| Seqs.Filter | app/components/dashboard/ExpenseAnalyzer.tsx:126-129 | `filter` never grows the array, and keeps exactly the elements that pass the predicate |
| Seqs.FilterAppend | app/components/dashboard/AIAgentCenter.tsx:123-125 | filtering a concatenation is the concatenation of the filtered parts, so log order is kept |
| Seqs.FilterKeepsAll | app/components/dashboard/ExpenseAnalyzer.tsx:126-129 | filtering returns the array unchanged (and of equal length) exactly when every element passes |
| Seqs.SumOf | app/components/dashboard/ExpenseAnalyzer.tsx:131-134 | a `reduce` sum from 0 of non-negative terms is non-negative |
| Seqs.SumOfAppend | app/components/dashboard/ExpenseAnalyzer.tsx:131-134 | the sum over a concatenation is the sum of the two sums |
| Seqs.SumOfAdd | app/components/dashboard/GoalManagement.tsx:532-538 | summing a pointwise sum of two terms gives the sum of the two sums |
| Seqs.SumOfZero | app/components/dashboard/ExpenseAnalyzer.tsx:138-140 | a sum whose terms are all 0 is 0 |
| Seqs.SumOfPositive | app/components/dashboard/ExpenseAnalyzer.tsx:131-134 | a sum of non-negative terms with one positive term is positive |
| Seqs.SumOfFilter | app/components/dashboard/ExpenseAnalyzer.tsx:138-140 | filtering then summing equals summing with the rejected terms set to 0 |
| Seqs.FindFirst | app/components/dashboard/ExpenseAnalyzer.tsx:144 | `find` gives nothing exactly when no element matches; otherwise a matching member with no earlier match |
| Goals.ProgressPercentage | app/components/dashboard/GoalManagement.tsx:148-150 | progress never exceeds 100; for a positive target it is exactly 100 iff current >= target, equals current/target*100 when current <= target, and is negative for a negative current amount (no lower clamp) |
| Goals.ProgressMonotone | app/components/dashboard/GoalManagement.tsx:148-150 | for a fixed positive target, more saved never shows less progress |
| Goals.Ceil | app/components/dashboard/GoalManagement.tsx:159 | `Math.ceil`: the least integer n with x <= n, so n - 1 < x |
| Goals.GetTimeToGoal | app/components/dashboard/GoalManagement.tsx:152-168 | "Goal reached!" iff current >= target; otherwise n >= 1 months with (n-1)*contribution < remaining <= n*contribution, shown as months iff n <= 12, else years >= 1 and months < 12 with 12*years + months = n |
| Goals.SampleEmergencyGoal | app/components/dashboard/GoalManagement.tsx:105-166 | the Emergency Fund goal (8500 of 12500) is 68 % done and at $300 a month needs 14 months, shown as 1y 2m |
| Goals.Step | app/components/dashboard/GoalManagement.tsx:236-280 | each dialog event replaces exactly one field of the calculator state and keeps the others |
| Goals.RunKeepsOfferedMonths | app/components/dashboard/GoalManagement.tsx:273-290 | after any sequence of dialog events the month count is one of 3, 6, 9, 12 offered by the select |
| Goals.Run | app/components/dashboard/GoalManagement.tsx:236-280 | the dialog state after a sequence of events; its contract is carried by RunKeepsOfferedMonths (the month count stays offered) and Step (one field per event) |
| Goals.RecommendedFund | app/components/dashboard/GoalManagement.tsx:299-302 | the fund is non-negative for non-negative expenses, and with months > 0 it is 0 exactly when the expenses are 0 |
| Goals.FundProportionalToMonths | app/components/dashboard/GoalManagement.tsx:299-302 | for the same expenses, doubling the number of months doubles the recommended fund |
| Goals.InitialFund | app/components/dashboard/GoalManagement.tsx:142-146 | the dialog opens at 4200 for 6 months, giving 25200; after non-numeric input it shows 0 |
| Goals.TypedExpensesFund | app/components/dashboard/GoalManagement.tsx:261-265 | in every dialog state, typing text that is not a number (`parseFloat(..) \|\| 0`) makes the fund 0 and keeps the months; typing a number v makes it v times the months |
| Goals.ActiveGoals | app/components/dashboard/GoalManagement.tsx:507 | the active count is at most the number of goals, and equals it iff every goal is active |
| Goals.TotalTarget | app/components/dashboard/GoalManagement.tsx:514-516 | the total target of non-negative targets is non-negative |
| Goals.TotalSaved | app/components/dashboard/GoalManagement.tsx:523-525 | the total saved of non-negative amounts is non-negative |
| Goals.Remaining | app/components/dashboard/GoalManagement.tsx:532-538 | the fold of target minus current over the goals; its contract is carried by RemainingIsTargetMinusSaved and OvershootMakesRemainingNegative |
| Goals.RemainingIsTargetMinusSaved | app/components/dashboard/GoalManagement.tsx:532-538 | Remaining = Total Target - Total Saved, and it is negative exactly when more is saved than targeted |
| Goals.OvershootMakesRemainingNegative | app/components/dashboard/GoalManagement.tsx:532-538 | a single goal saved past its target shows a negative remaining amount |
| Goals.SampleOverview | app/components/dashboard/GoalManagement.tsx:99-139 | the three sample goals show 3 active, 67500 target, 29800 saved, 37700 remaining |
| Expenses.CategoryIdsDistinct | app/components/dashboard/ExpenseAnalyzer.tsx:53-82 | the eight category ids are pairwise distinct |
| Expenses.SameIdSameCategory | app/components/dashboard/ExpenseAnalyzer.tsx:53-82 | two declared categories with the same id are the same category |
| Expenses.FilteredExpenses | app/components/dashboard/ExpenseAnalyzer.tsx:126-129 | with "all" the list is returned unchanged; otherwise exactly the expenses of the selected category |
| Expenses.FilteredExpensesAppend | app/components/dashboard/ExpenseAnalyzer.tsx:126-129 | the filtered list keeps the original order: an added expense appears at the end iff it is selected |
| Expenses.TotalExpenses | app/components/dashboard/ExpenseAnalyzer.tsx:131-134 | the grand total of no expenses is 0, and of non-negative amounts is non-negative |
| Expenses.CategorySum | app/components/dashboard/ExpenseAnalyzer.tsx:138-140 | a category's total is 0 when no expense has its id, and non-negative for non-negative amounts |
| Expenses.PerCategory | app/components/dashboard/ExpenseAnalyzer.tsx:136-140 | one entry per category, in declaration order, each holding the sum of that category's expenses |
| Expenses.SortedHeadIsLargest | app/components/dashboard/ExpenseAnalyzer.tsx:141 | the first entry of a list sorted by decreasing total has the largest total |
| Expenses.InsertByTotal | app/components/dashboard/ExpenseAnalyzer.tsx:141 | one insertion step of the stable sort; its contract is carried by InsertByTotalSorted, InsertByTotalStable, InsertByTotalSum and InsertByTotalAt |
| Expenses.InsertByTotalSorted | app/components/dashboard/ExpenseAnalyzer.tsx:141 | inserting into a sorted list keeps it sorted and adds exactly the new entry |
| Expenses.PrependLargest | app/components/dashboard/ExpenseAnalyzer.tsx:141 | an entry at least as large as the head of a sorted list can be put in front and the list stays sorted |
| Expenses.SortByTotalSorted | app/components/dashboard/ExpenseAnalyzer.tsx:141 | the sort returns a permutation of its input ordered by non-increasing total |
| Expenses.InsertByTotalStable | app/components/dashboard/ExpenseAnalyzer.tsx:141 | inserting places the new entry after every entry with an equal total |
| Expenses.SortByTotalStable | app/components/dashboard/ExpenseAnalyzer.tsx:141 | the sort is stable: entries with equal totals keep their input order |
| Expenses.SortByTotal | app/components/dashboard/ExpenseAnalyzer.tsx:141 | `sort((a, b) => b.total - a.total)`; its contract is carried by SortByTotalSorted (sorted permutation), SortByTotalStable (ties keep input order) and SortByTotalSum |
| Expenses.DistinctOccursOnce | app/components/dashboard/ExpenseAnalyzer.tsx:53-82 | a member of a list with distinct elements occurs exactly once in it |
| Expenses.SortedPerCategory | app/components/dashboard/ExpenseAnalyzer.tsx:136-141 | for any category list with distinct ids, the sorted per-category totals are sorted by non-increasing total and a permutation of the per-category entries; each entry belongs to a listed category with that category's sum, and each category's entry occurs exactly once |
| Expenses.CategoryTotalsSpec | app/components/dashboard/ExpenseAnalyzer.tsx:136-141 | `categoryTotals` has 8 entries sorted by non-increasing total; every category occurs exactly once with the sum of its expenses |
| Expenses.CategoryTotalsTiesInDeclarationOrder | app/components/dashboard/ExpenseAnalyzer.tsx:141 | categories with equal totals appear in `categoryTotals` in declaration order |
| Expenses.CategoryTotals | app/components/dashboard/ExpenseAnalyzer.tsx:136-141 | the `categoryTotals` value; its contract is carried by CategoryTotalsSpec, CategoryTotalsTiesInDeclarationOrder and CategoryTotalsConservation |
| Seqs.SumOfSingleton | app/components/dashboard/ExpenseAnalyzer.tsx:131-134 | the sum over a single element is its term |
| Expenses.InsertByTotalSum | app/components/dashboard/ExpenseAnalyzer.tsx:141 | inserting an entry adds its total to the sum of totals |
| Expenses.SortByTotalSum | app/components/dashboard/ExpenseAnalyzer.tsx:141 | sorting leaves the sum of totals unchanged |
| Expenses.KnownSplit | app/components/dashboard/ExpenseAnalyzer.tsx:131-140 | with distinct ids, an expense's share filed under the categories `cs + [c]` is its share under `cs` plus its share under `c` |
| Expenses.PerCategorySum | app/components/dashboard/ExpenseAnalyzer.tsx:131-140 | over distinct categories, the bucket sums add up to the total of the expenses whose category is known |
| Expenses.KnownPlusUnknown | app/components/dashboard/ExpenseAnalyzer.tsx:131-134 | the amounts under a listed category and the amounts under no listed category add up to the grand total |
| Expenses.CategoryTotalsConservation | app/components/dashboard/ExpenseAnalyzer.tsx:131-141 | the category totals plus the amounts with an unknown category id add up to the grand total |
| Expenses.ConservationIn | app/components/dashboard/ExpenseAnalyzer.tsx:131-141 | for any category list with distinct ids, the sorted bucket totals plus the unmatched amounts add up to the grand total |
| Expenses.CategoryTotalsMatchGrandTotal | app/components/dashboard/ExpenseAnalyzer.tsx:131-141 | with positive amounts, the category totals add up to the grand total iff every expense has a known category id |
| Expenses.SampleSums | app/components/dashboard/ExpenseAnalyzer.tsx:85-121 | a sum over the five sample expenses is the sum of the five terms |
| Expenses.SampleCategorySum | app/components/dashboard/ExpenseAnalyzer.tsx:85-140 | a category's total over the sample is the sum of its sample amounts |
| Expenses.SampleCategorySums | app/components/dashboard/ExpenseAnalyzer.tsx:85-140 | the sample total is 330.61: food 172.65, utilities 89.67, transportation 52.30, entertainment 15.99, other categories 0 |
| Expenses.InsertByTotalAt | app/components/dashboard/ExpenseAnalyzer.tsx:141 | inserting below the first k entries and above the rest puts the entry at index k |
| Expenses.CategoryIdsInOrder | app/components/dashboard/ExpenseAnalyzer.tsx:53-82 | the eight categories are declared housing, transportation, food, shopping, entertainment, healthcare, education, utilities |
| Expenses.SamplePerCategory | app/components/dashboard/ExpenseAnalyzer.tsx:85-140 | the per-category entries of the sample, in declaration order |
| Expenses.SortSampleTotals | app/components/dashboard/ExpenseAnalyzer.tsx:141 | eight entries with the sample's totals sort to food, utilities, transportation, entertainment, then the zero entries in their input order |
| Expenses.SampleCategoryTotals | app/components/dashboard/ExpenseAnalyzer.tsx:85-141 | the sample's `categoryTotals` is food 172.65, utilities 89.67, transportation 52.30, entertainment 15.99, then housing, shopping, healthcare, education at 0 |
| Expenses.FindCategory | app/components/dashboard/ExpenseAnalyzer.tsx:144 | the lookup finds a category iff the id is declared, and what it finds has that id |
| Expenses.CategoryIcon | app/components/dashboard/ExpenseAnalyzer.tsx:143-146 | a declared id gives that category's icon; an unknown id gives ShoppingCart |
| Expenses.CategoryColor | app/components/dashboard/ExpenseAnalyzer.tsx:148-151 | a declared id gives that category's colour; an unknown id gives bg-gray-500 |
| AgentChat.CurrentAgent | app/components/dashboard/AIAgentCenter.tsx:122 | the current agent exists iff the selection is an agent id, and then it is the agent with that id |
| AgentChat.OfferedAgentsFound | app/components/dashboard/AIAgentCenter.tsx:224-231 | every agent the selector offers is found again by its id |
| AgentChat.TrimStart | app/components/dashboard/AIAgentCenter.tsx:158 | trimming the front drops a blank prefix and leaves a suffix that does not start with white space |
| AgentChat.TrimEnd | app/components/dashboard/AIAgentCenter.tsx:158 | trimming the back drops a blank suffix and leaves a prefix that does not end with white space |
| AgentChat.Trim | app/components/dashboard/AIAgentCenter.tsx:158 | `trim()` as TrimEnd after TrimStart; its contract is carried by TrimStart, TrimEnd and TrimEmptyIffBlank |
| AgentChat.TrimEmptyIffBlank | app/components/dashboard/AIAgentCenter.tsx:158 | the trimmed input is empty exactly when the input is all white space |
| AgentChat.HasText | app/components/dashboard/AIAgentCenter.tsx:158 | the send guard passes exactly when the input is not all white space |
| AgentChat.AgentMessages | app/components/dashboard/AIAgentCenter.tsx:123-125 | an agent's conversation holds exactly the user messages and that agent's messages of the log |
| AgentChat.AgentMessagesAppend | app/components/dashboard/AIAgentCenter.tsx:123-125 | a message appended to the log is appended to a conversation iff that conversation shows it, so log order is kept |
| AgentChat.ChatPanel.constructor | app/components/dashboard/AIAgentCenter.tsx:95-120 | the panel opens with the budget agent, the opening conversation, an empty input and no reply due |
| AgentChat.ChatPanel.Current | app/components/dashboard/AIAgentCenter.tsx:122 | the selected agent's entry always exists and has the selected id |
| AgentChat.ChatPanel.View | app/components/dashboard/AIAgentCenter.tsx:123-125 | the panel's `agentMessages`: AgentMessages of the log for the selected agent; its contract is carried by AgentMessages and SendSwitchAndReply |
| AgentChat.ChatPanel.SelectAgent | app/components/dashboard/AIAgentCenter.tsx:224-231 | selecting an agent changes only the selection |
| AgentChat.ChatPanel.Type | app/components/dashboard/AIAgentCenter.tsx:329 | typing changes only the input text |
| AgentChat.ChatPanel.Send | app/components/dashboard/AIAgentCenter.tsx:157-182 | a blank input changes nothing; otherwise exactly one user message with the untrimmed text is appended, the input is cleared, and a reply from the current agent is scheduled |
| AgentChat.ChatPanel.DeliverReply | app/components/dashboard/AIAgentCenter.tsx:171-181 | the oldest scheduled reply is appended, tagged with the agent selected when its message was sent |
| AgentChat.SendSwitchAndReply | app/components/dashboard/AIAgentCenter.tsx:157-182 | switching agent before the reply arrives leaves the reply tagged with the original agent; the new agent's conversation gains only the user message |
| HealthScore.ScoreColor | app/components/dashboard/FinancialHealthScore.tsx:14-18 | green iff score >= 80, yellow iff 60 <= score < 80, red iff score < 60 |
| HealthScore.ScoreStatus | app/components/dashboard/FinancialHealthScore.tsx:20-30 | Excellent iff score >= 80, Good iff 60 <= score < 80, Needs Attention iff score < 60 |
| HealthScore.ScoreBand | app/components/dashboard/FinancialHealthScore.tsx:14-30 | the band is Excellent iff score >= 80, Good iff 60 <= score < 80, Needs Attention iff score < 60 |
| HealthScore.ColorAndStatusPerBand | app/components/dashboard/FinancialHealthScore.tsx:14-30 | per band, the colour and the whole status badge (text, background, icon) the card shows |
| HealthScore.ColorAndStatusAgree | app/components/dashboard/FinancialHealthScore.tsx:14-30 | green iff Excellent, yellow iff Good, red iff Needs Attention: the colour and the badge always name the same band |
| HealthScore.BandMonotone | app/components/dashboard/FinancialHealthScore.tsx:14-30 | a higher score never lands in a worse band |
| HealthScore.FixedScoreIsGood | app/components/dashboard/FinancialHealthScore.tsx:13-32 | the card's fixed score of 78 is in the Good band, in yellow, with the shield icon |

## Left out

- The rest of the application is not part of this model, because it holds no computation:
  - the chart card `VisualAnalytics.tsx`, including its debt-payoff figures, which are constants;
  - the home page `home.tsx` and the layout `root.tsx`;
  - all JSX rendering, dialogs and widgets.
- The hard-coded display values carry no logic:
  - milestones, suggested allocation, recommendations, health sub-scores;
  - the priority and status badge colours (`getPriorityColor`, `getStatusColor`).
- Library parsing and formatting are not modelled:
  - `parseFloat` is a parameter of the event, either a number or not-a-number;
  - `parseInt` is a choice among the four offered month counts;
  - `toFixed` and `toLocaleString` are left out.
- The time-to-goal label strings are left out. Their content is the `TimeToGoal` datatype: reached, months, or years and months.
- Reply timing is not modelled. Message ids and timestamps (`Date.now()`) and the one-second reply delay are left out; each timer firing is an explicit `DeliverReply` step, taken in the order the timers were set.
- Binary floating-point rounding of amounts is not modelled; amounts are exact reals.
- The "Add Goal" and "Add Expense" dialogs change no state in the source, so they are not modelled.
- Goals.ProgressPercentage: a zero target is excluded, because the unguarded division yields Infinity or NaN, which reals cannot represent.
- Goals.GetTimeToGoal: a contribution of zero or less is excluded, because the division would yield Infinity or a negative month count; the only caller uses the default of 300.
