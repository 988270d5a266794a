# CompanyData core in Dafny

This project models the data-handling core of `CompanyData.py`. The module is
a client for a national business registry's filings API. The model covers
what happens between the network and the spreadsheet:

- **Company identifiers** (`company_id.dfy`). `_clean_input` and `format_id`
  strip white space, delete every non-digit and accept 10 or 11 digits.
  `format_id` can also render the `BE dddd.ddd.ddd` display form.
- **Reference resolution** (`references.dfy`). `_handle_df_of_references`
  works in place on the reference table: it sorts by (period end, deposit
  date), drops rows without an accounting-data URL, and drops every row whose
  accounting period occurs again further down. `fetch_references` then keeps
  the last `year_span` rows. The table is a class whose methods change its
  `rows`. Each step is proved against a specification function, and the
  lemmas state what the steps give together: rows from the input, each with
  a URL, sorted, one per period, and the latest deposit of that period.
- **Latest filing** (`last_filing.dfy`). `_last_filing` returns the first key
  whose year part is the greatest year.
- **Document flattening** (`filing_text.dfy`, `administrators.dfy`,
  `participations.dfy`). `_fetch_address`, `_fetch_legal_form`,
  `_fetch_mandate` and `_fetch_representative` build strings.
  `_fetch_administrators` and `_fetch_participating_interests` build parallel
  columns. The loops are methods proved equal to fold functions. The lemmas
  give the column lengths, the error behaviour and the string layout.
- **Financial table** (`fin_data.dfy`). `fetch_fin_data` builds one row per
  (period symbol, filing) from the code lookup table. Each label's value is
  the value filed for its code, or 0 when that code was not filed. The code
  raises when a filing has no line items at all (its frame then has no
  `Period` column), and when a code that some label of the lookup table maps
  to occurs twice in one period's slice of a filing. The rows are sorted by reference key.
- **Metrics** (`metrics.dfy`). DSO, DPO, the two inventory cycles and
  EBIT/EBITDA are computed on one record of the financial table. Each is a
  method of a record class that writes its own key and nothing else.

Shared pieces are `text.dfy` (Python's `strip`, `replace`, `startswith`,
string order and `title` on ASCII), `sorting.dfy` (a stable insertion sort,
proved sorted, a permutation and stable) and `wrappers.dfy` (`Option`,
`Result`). A raised exception is an `Err` value of a per-operation error
type.

Three facts about the code that the model keeps:

- The code does not sort again after deduplication, so the proved order is
  (end, deposit), and two periods may share an end date.
- No metric checks that the period covers a full year or returns a skip
  reason.
- A metric writes its key into the record it is given.

## Model

| member | source | states |
|---|---|---|
| CompanyId.CleanInput | CompanyData.py:48-61 | succeeds exactly when the input holds 10 or 11 digits; the result is those digits in order, everything else removed; otherwise the length error |
| CompanyId.FormatId | CompanyData.py:197-212 | same acceptance as cleaning; without prefix the cleaned digits, with prefix "BE " + digits 0-3 + "." + digits 4-6 + "." + the rest |
| CompanyId.NonDigitIgnored | CompanyData.py:55-57 | inserting any non-digit character anywhere in the input changes neither the cleaned nor the formatted result |
| CompanyId.DisplayDigits | CompanyData.py:203-207 | the display form adds no digit and loses none |
| CompanyId.FormatRoundTrip | CompanyData.py:197-212 | cleaning the prefixed display form gives back the plain form |
| CompanyId.CleanIdempotent | CompanyData.py:48-61 | cleaning an accepted result again returns it unchanged |
| CompanyId.ShortInputRejected | CompanyData.py:57-60 | an input of fewer than 10 characters is always rejected |
| Sorting.InsertionSort | CompanyData.py:120-124 | returns the stable sort of its input under the given order |
| Sorting.SortByPermutes | CompanyData.py:120-124 | sorting keeps every row with its multiplicity |
| Sorting.SortBySorted | CompanyData.py:120-124 | under a total preorder the result is ascending |
| Sorting.SortByStable | CompanyData.py:120-124 | rows that tie keep their relative order |
| References.ReferenceTable.SortValues | CompanyData.py:120-124 | the table becomes its stable sort by (period end, deposit date) |
| References.ReferenceTable.DropMissingUrl | CompanyData.py:126-130 | the table keeps, in order, exactly the rows that have an accounting-data URL |
| References.ReferenceTable.DropDuplicates | CompanyData.py:132-137 | a row stays exactly when no later row has the same (start, end) period |
| References.ReferenceTable.HandleReferences | CompanyData.py:109-139 | the table becomes sort, then URL filter, then deduplication of its old rows |
| References.FetchReferences | CompanyData.py:141-158 | raises exactly for an empty reference list (no column to sort by); otherwise the handled table cut to its last `year_span` rows |
| References.Tail | CompanyData.py:157 | `tail(n)`: the last n rows for n >= 0 (all when fewer), all but the first -n rows for n < 0, always a suffix |
| References.WithUrlMembers | CompanyData.py:126-130 | a row is kept if and only if it is in the input and has a URL |
| References.WithUrlSorted | CompanyData.py:126-130 | dropping rows keeps a sorted table sorted |
| References.DropDuplicatesMembers | CompanyData.py:132-137 | deduplication keeps only input rows and loses no period |
| References.DropDuplicatesSorted | CompanyData.py:132-137 | deduplication keeps a sorted table sorted |
| References.DropDuplicatesDistinct | CompanyData.py:132-137 | after deduplication no two rows share a period |
| References.DropDuplicatesKeepsLatest | CompanyData.py:117-137 | on a sorted table, the row kept for a period has the latest deposit date of that period |
| References.HandledProperties | CompanyData.py:109-139 | handled rows come from the input, carry a URL, are sorted, have distinct periods, are the latest deposit of their period among rows with a URL, and cover every such period |
| References.ResolveProperties | CompanyData.py:141-158 | the resolved rows keep all of these properties after the tail |
| References.EveryEligiblePeriodResolved | CompanyData.py:126-158 | with a span covering the handled table, every period of a filing with a URL is resolved |
| LastFiling.YearPart | CompanyData.py:219 | the key's text before its first '-': a prefix without '-', followed by '-' unless it is the whole key |
| LastFiling.MaxString | CompanyData.py:218-220 | `max` over strings: an element no other element exceeds in string order |
| LastFiling.FirstStartingWith | CompanyData.py:221-222 | the first index whose key starts with the prefix |
| LastFiling.StartsWithMaxYear | CompanyData.py:218-222 | a key that starts with the greatest year has exactly that year |
| LastFiling.LastFiling | CompanyData.py:214-223 | an error exactly for no keys; otherwise a key whose year no key exceeds, and no earlier key has that year |
| FilingText.FlattenText | CompanyData.py:225-250 | the built text is stripped, and empty for an empty dictionary |
| FilingText.BuildText | CompanyData.py:225-250 | the loop's result equals the flattening function |
| FilingText.IgnoredEntry | CompanyData.py:230-233 | an entry whose value is None or whose key is not read never changes the text |
| FilingText.AddressIgnoresPostalCode | CompanyData.py:229-233 | a PostalCode entry never shows in the address |
| FilingText.FlattenReadable | CompanyData.py:225-250 | without an unreadable value the text is the cleaned values read, in order, each followed by a space, stripped |
| FilingText.FlattenAfterError | CompanyData.py:234-235 | after the last unreadable value the text is the error text followed by the later values |
| FilingText.MandateText | CompanyData.py:252-260 | the mandate text is stripped |
| FilingText.MandateLayout | CompanyData.py:252-260 | with no outer white space it reads "<function with FunctionCode>, from <start or NA> until <end or NA>" exactly |
| FilingText.RepresentativeName | CompanyData.py:262-268 | the name is stripped |
| FilingText.RepresentativeLayout | CompanyData.py:262-268 | it reads "<First> <Last>" title-cased, and title-cased names give the same result |
| Text.TitleIdempotent | CompanyData.py:265-266 | title-casing twice equals title-casing once |
| Administrators.MandateColumn | CompanyData.py:291-295 | an administrator adds one mandate entry per mandate, or one "NA" |
| Administrators.AppendRepresentatives | CompanyData.py:285-287 | the two columns grow by the representatives' names and addresses, in order |
| Administrators.AppendLegal | CompanyData.py:283-295 | the loop body for one legal person equals its table step |
| Administrators.AppendMandates | CompanyData.py:291-295 | the mandate column grows by the administrator's mandate entries |
| Administrators.FetchAdministrators | CompanyData.py:270-318 | the loops build exactly the table of the group fold |
| Administrators.AppendLegals | CompanyData.py:282-295 | the loop over one entry's legal persons builds exactly that entry's table step |
| Administrators.AppendNaturals | CompanyData.py:297-308 | the loop over one entry's natural persons builds exactly that entry's table step, with "NA" in the entity columns |
| Administrators.AddGroupsGrowth | CompanyData.py:281-308 | every group adds one row per representative or natural person to five columns, and its mandate entries to the sixth |
| Administrators.OtherGroupIgnored | CompanyData.py:281-297 | an entry under any key other than LegalPersons or NaturalPersons leaves the table as without it |
| Administrators.NaturalPersonsHaveNoEntity | CompanyData.py:297-303 | each natural person adds exactly one "NA" to each of the three entity columns and changes no earlier entry |
| Administrators.AdministratorColumnLengths | CompanyData.py:274-318 | five columns have one entry per row; the mandate column has one entry per mandate, or one per administrator without mandates |
| Participations.AppendHoldings | CompanyData.py:354-364 | the per-holding loop equals its fold |
| Participations.CleanCurrencies | CompanyData.py:371 | succeeds exactly when every currency is a string, keeping the length |
| Participations.CleanCurrencyColumn | CompanyData.py:371 | the comprehension equals the cleaning function, including its error |
| Participations.FetchParticipatingInterests | CompanyData.py:320-380 | the loops build exactly the flattened table, in the written or the corrected layout |
| Participations.AsWrittenColumnLengths | CompanyData.py:337-364 | as written, entity columns get d entries and per-holding columns d*d for a participation with d holdings |
| Participations.AsWrittenColumnsMismatch | CompanyData.py:354-364 | as written, one participation with two or more holdings makes the per-holding columns longer than the entity columns |
| Participations.ByHoldingColumnLengths | CompanyData.py:354-364 | corrected, all twelve columns have one entry per holding |
| Participations.CurrencyErrors | CompanyData.py:338-371 | flattening fails exactly when some participation with an entity and a holding has a currency that is not a string |
| FinData.Slice | CompanyData.py:489 | the slice is no longer than the line items and holds only the symbol's lines |
| FinData.SliceMembers | CompanyData.py:489 | a line item is in the slice exactly when it is a line item of the filing with that symbol: none is dropped |
| FinData.BuildRow | CompanyData.py:491-505 | a row has exactly the lookup table's labels and carries the reference, symbol, name and dates |
| FinData.RowValues | CompanyData.py:492-499 | a label's value is the value filed for its code, or 0 when the code was not filed |
| FinData.MakeRow | CompanyData.py:489-506 | fails exactly when a looked-up code occurs twice in the slice, else builds the row |
| FinData.CollectSymbol | CompanyData.py:489-511 | fails exactly when some filing has no line items (the `KeyError` of `df['Period']`) or its slice repeats a looked-up code; otherwise the rows of the non-empty slices in filing order |
| FinData.CollectRows | CompanyData.py:487-511 | the loops over symbols and filings fail exactly when some symbol is requested and some filing has no line items, or some requested symbol's slice in some filing repeats a looked-up code, and otherwise collect exactly the rows of the row specification, symbol by symbol |
| FinData.FetchFinData | CompanyData.py:476-515 | reads a single period string as one symbol, the corrected reading of :487 (see Findings); fails exactly when a requested symbol meets a filing without line items or a slice that repeats a looked-up code; otherwise the rows are sorted by reference and a permutation of all (symbol, filing) rows |
| FinData.ClashCases | CompanyData.py:462-495 | the loops raise exactly when a symbol is requested and some filing has no line items (no `Period` column), or when some requested symbol has a slice that repeats a looked-up code |
| FinData.RowsExactly | CompanyData.py:487-511 | a row is produced exactly when it is the row of a requested symbol and a filing with lines for that symbol |
| FinData.AsWrittenSplitsPeriod | CompanyData.py:487 | as written, the period "NM1" only yields rows tagged with one-character symbols, never "NM1" |
| FinData.IntendedSelectsPeriod | CompanyData.py:476-487 | corrected, a single period string yields exactly that symbol's rows |
| Metrics.RoundHalfEven | CompanyData.py:548 | the result is within one half of the number, and even on a tie |
| Metrics.Operands | CompanyData.py:520-539 | succeeds exactly when every label is present with a number; on failure names a read label, reporting a missing label before a text one |
| Metrics.Dso | CompanyData.py:517-551 | defined exactly when the six labels are present, 70, 74, 740 and 9146 hold numbers, 40 and 9150 are both numbers or both texts (which `+` concatenates), and texts only where the denominator is zero, since the zero test comes before the division |
| Metrics.DsoTextNumerator | CompanyData.py:541-546 | with text under 40 and 9150, 'Zero Division' when the denominator is zero and a `TypeError` otherwise |
| Metrics.DsoFormula | CompanyData.py:541-550 | 'Zero Division' exactly when 70+74-740+9146 is zero, else (40+9150) over it times 365, rounded |
| Metrics.Dpo | CompanyData.py:553-579 | defined exactly when the four labels are present, 600/8, 61 and 9145 hold numbers, and 44 holds a number unless the denominator is zero |
| Metrics.DpoTextNumerator | CompanyData.py:570-573 | with text under 44, 'Zero Division' when the denominator is zero and a `TypeError` otherwise |
| Metrics.DpoFormula | CompanyData.py:570-578 | 'Zero Division' exactly when 600/8+61+9145 is zero, else 44 over it times 365, rounded |
| Metrics.DioFinished | CompanyData.py:581-643 | defined exactly when all sixteen labels hold numbers |
| Metrics.DioFinishedFormula | CompanyData.py:632-642 | 0 when 32+33+35+37 is zero, else the operating charges less 71, 72, 740 and 9125, over that stock, rounded |
| Metrics.DioCrude | CompanyData.py:645-674 | defined exactly when the five labels are present, 30/31, 34, 35 and 36 hold numbers, and 60 holds a number unless the denominator is zero |
| Metrics.DioCrudeTextNumerator | CompanyData.py:664-670 | with text under 60, 0 when the denominator is zero and a `TypeError` otherwise |
| Metrics.DioCrudeFormula | CompanyData.py:664-673 | 0 when 30/31+34+35+36 is zero, else 60 over it, rounded |
| Metrics.EbitDaOutcome | CompanyData.py:688-738 | defined exactly when the EBIT labels hold numbers and, unless `calc` is 'ebit', the write-down labels too; writes under `calc` itself; writes nothing exactly when `calc` is neither 'ebit' nor 'ebitda' |
| Metrics.EbitFormula | CompanyData.py:714-720 | EBIT is 9903-750-751-752/9+650+652/9-76B+66B |
| Metrics.EbitdaExtendsEbit | CompanyData.py:735-737 | EBITDA is EBIT plus 630, 631/4 and 651 |
| Metrics.MetricsIndependent | CompanyData.py:517-738 | no metric reads a key a metric writes, so the metrics run in any order and repeating one changes nothing |
| Metrics.FinancialRecord.DaysSalesOutstanding | CompanyData.py:517-551 | writes the DSO outcome under 'DSO' and nothing else, or raises and leaves the record unchanged |
| Metrics.FinancialRecord.DaysPayablesOutstanding | CompanyData.py:553-579 | writes under 'DPO' only, or raises and leaves the record unchanged |
| Metrics.FinancialRecord.InventoryCycleFinished | CompanyData.py:581-643 | writes under 'DIO_finished' only, or raises and leaves the record unchanged |
| Metrics.FinancialRecord.InventoryCycleCrude | CompanyData.py:645-674 | writes under 'DIO_crude' only, or raises and leaves the record unchanged |
| Metrics.FinancialRecord.EbitDa | CompanyData.py:688-738 | writes 'ebit' or 'ebitda' only, nothing for another `calc`, or raises and leaves the record unchanged |

## Left out

- HTTP and environment: `_api_call`, `_reference_uri_creation`, `fetch_data`, the API key from `load_dotenv`, and the empty table `fetch_references` returns on a failed call. The model starts from the decoded reference rows and documents.
- JSON decoding and `json_normalize`: reference rows, filing documents and financial line items are given as datatypes.
- `fetch_quantative_data`, `_fetch_shareholders`, `_fetch_company_info`, `_extract_fin_data` and `excel_export` are orchestration and export around the modelled builders. `ccc` adds the same mutated table to itself and has no coherent result to state.
- `CompanyData.__init__` only calls `_clean_input`.
- Floating point: amounts are exact reals. `round` is modelled as round-half-to-even on the exact ratio, so results can differ from the code where binary floats round differently.
- Dates are integers in calendar order; the code compares ISO date strings. Missing dates (NaN) in the reference table are not modelled.
- Documents are typed. A missing key or a `None` sub-dictionary raises `KeyError` or `AttributeError` in the code; the model cannot express such inputs. The exceptions it does model are the `KeyError` of sorting an empty reference list, `replace` on a non-string, `max` of nothing, the `KeyError` of `df['Period']` on a filing without line items, a looked-up code occurring twice in one period's slice, and a missing or text operand of a metric.
- `str.title`, `str.isspace` and the `\D` class are modelled on ASCII letters and digits plus Python's white-space set. Unicode letters and digits are not covered.
- `fnmatch` is modelled as `startswith`; a year containing `*`, `?` or `[` would act as a pattern in the code.
- FinData.FetchFinData: a single period string is one symbol, the corrected reading of line 487; the code as written splits it into characters, which `FinData.AsWrittenSplitsPeriod` states.
- References.FetchReferences: a non-empty table in which no row has an `AccountingDataURL` key at all also lacks that column, and `dropna` then raises `KeyError`; the model cannot tell an absent key from a null one and keeps such a table (with no row left).
- FinData.FetchFinData: `sort_index` is not stable, so the model promises only sorted by reference key and a permutation. The order among rows of one reference is not modelled.
- A financial row keeps the enterprise name, dates and symbol in fields beside the label values, not as extra keys of one dictionary. Column order is not modelled.
- Metrics.Operands: a missing label is reported before a text operand. `inventory_cycle_finished` adds its first eight operands as it reads them, so a text value under label 60 with label 62 missing raises `TypeError` before the missing label is read; the model reports the missing label. The other metrics read every label before any arithmetic. In `inventory_cycle_finished` and `ebit_da` every text operand ends in a `TypeError`, even where `+` first concatenates two of them. The rows `fetch_fin_data` builds hold only numbers under every label.
- A metric works on one record (one row, read as scalars). On a DataFrame, `if denominator == 0` takes the truth value of a Series, which raises `ValueError`; so `days_sales_outstanding`, `days_payables_outstanding` and both inventory cycles raise on every table, including the one `fetch_fin_data` returns. Only `ebit_da`, which has no such test, works column by column. The model does not cover the table case.

## Findings

| source | as written | input that shows it | evidently intended | confidence | as-written member | corrected member |
|---|---|---|---|---|---|---|
| CompanyData.py:487 | `for symbol in period` iterates a single string argument character by character | `period='NM1'` selects the rows of symbols 'N', 'M' and '1', i.e. the current year instead of the prior year | a single string is one period symbol, as the docstring's 'NM1' example says | high, not executed | FinData.AsWrittenSplitsPeriod | FinData.IntendedSelectsPeriod |
| CompanyData.py:354-364 | each holding's five values are appended `dimension` times | one participation with 2 holdings gives 2 entity rows and 4 per-holding entries, and the columns no longer line up | one entry per holding in all twelve columns | high, not executed | Participations.AsWrittenColumnsMismatch | Participations.ByHoldingColumnLengths |
