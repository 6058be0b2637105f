# AWS billing bot: verified model of the report formatting core

The bot is a scheduled AWS Lambda job (`terraform/lambda_function/main.py`). It asks
Cost Explorer for the amortized cost of the current month, in total and per service.
It turns the answer into a Japanese title and an itemised text, builds a Microsoft
Teams message card, and posts it to a webhook.

This Dafny project models the three pure parts of that job and proves what they promise.

- **Reporting window** (`get_total_cost_date_range`, `get_begin_of_month`, `get_today`).
  From today's date it computes the half-open period `[start, end)` for both Cost Explorer
  queries. Normally that is the first of the month up to today. Cost Explorer rejects
  equal start and end dates, so on the first of a month the period becomes the whole
  previous month. Today is an explicit parameter instead of the system clock.
- **Message** (`get_message`). The title reads `MM/DD～MM/DDの請求額は、<total> USDです。`.
  Its second date is the day before the exclusive end that Cost Explorer returned. The
  detail text has one line `　・<service>: <amount> USD` per service whose rounded amount
  is not zero, in the order Cost Explorer returned them.
- **Card facts** (`post_teams` up to the HTTP call). The same zero filter is applied. Each
  remaining service becomes `{"name": "<amount> USD", "value": <service>}` with its amount
  as a sort key. The list is sorted by amount, largest first, with Python's stable `sorted`,
  and then the key is deleted.

Amounts are whole cents: the value `round(float(x), 2)` stands for. Dates are proleptic
Gregorian dates in Python's range, year 1 to year 9999. Python's exceptions become a
`Result` (`ValueError` from `strptime`, `OverflowError` from date arithmetic).

Modules, one per concern:

| file | module | contents |
|---|---|---|
| `results.dfy` | `Results` | `Option`, `Result`, the two Python exceptions |
| `calendar.dfy` | `Calendar` | dates, leap years, first of month, previous/next day, counting days |
| `digits.dfy` | `Digits` | `%02d`, `%04d`, `str(n)` and reading digits back |
| `date_text.dfy` | `DateText` | `isoformat`, `strptime("%Y-%m-%d")`, `strftime("%m/%d")` |
| `money.dfy` | `Money` | `f"{x:.2f}"` on cents, the `"<amount> USD"` label, reading both back |
| `seqs.dfy` | `Seqs` | map and filter, with the ordered-selection lemma |
| `date_range.dfy` | `DateRange` | the reporting window |
| `message.dfy` | `Message` | `get_message`: title and detail text |
| `facts.dfy` | `Facts` | the card facts: filter, stable descending sort, key removal |

## Model

| member | source | states |
|---|---|---|
| `Calendar.FirstOfMonth` | terraform/lambda_function/main.py:166 | `replace(day=1)` yields a valid date on day 1 of the same year and month, never after the input |
| `Calendar.PrevDay` | terraform/lambda_function/main.py:159 | one day back is a valid date strictly earlier than the input; it fails (OverflowError) exactly at 0001-01-01 |
| `Calendar.PrevThenNext` | terraform/lambda_function/main.py:69 | stepping one day back and then one day forward returns the original date, across month and year ends and leap days |
| `Calendar.NextDay` | terraform/lambda_function/main.py:159 | one day forward is a valid date strictly later than the input; it is missing exactly at 9999-12-31; `PrevThenNext` and `NextThenPrev` show it undoes `PrevDay` |
| `Calendar.PrevDayIsLatestBefore` | terraform/lambda_function/main.py:159 | no valid date lies strictly between the previous day and the date itself |
| `DateText.Iso` | terraform/lambda_function/main.py:161-174 | `isoformat()` is ten characters with dashes at positions 4 and 7; `ParseIsoOfIso` and `IsoInjective` show it is read back exactly and names one date |
| `DateText.ParseIso` | terraform/lambda_function/main.py:65 | `strptime("%Y-%m-%d")` yields only valid dates; any other text raises ValueError carrying that text |
| `DateText.ParseIsoOfIso` | terraform/lambda_function/main.py:159 | parsing what `isoformat()` wrote gives the same date back |
| `DateText.IsoOfParseIso` | terraform/lambda_function/main.py:68 | any text `ParseIso` accepts is exactly the ISO text of the date it yields |
| `DateText.IsoInjective` | terraform/lambda_function/main.py:158 | two ISO texts are equal exactly when their dates are, so the source's string comparison is a date comparison |
| `DateText.MonthDay` | terraform/lambda_function/main.py:65 | `%m/%d` is five characters with a slash at position 2; the two fields read back as the month and the day |
| `Money.FormatCents` | terraform/lambda_function/main.py:73 | `f"{x:.2f}"` on cents has at least four characters, starts with a minus sign exactly when the amount is negative, and its dollar digits have no leading zero; `ReadCentsOfFormat` reads it back |
| `Money.Label` | terraform/lambda_function/main.py:104 | the fact label is the `.2f` text of the amount followed by ` USD`; `ReadLabelOfLabel` reads it back to the amount |
| `Money.ReadCentsOfFormat` | terraform/lambda_function/main.py:73 | the `.2f` text of an amount reads back to the same number of cents |
| `Money.FormatCentsInjective` | terraform/lambda_function/main.py:83 | two amounts have the same `.2f` text exactly when they are equal |
| `Money.ReadLabelOfLabel` | terraform/lambda_function/main.py:104 | the fact label `"<amount> USD"` reads back to the amount it was written from |
| `DateRange.Window` | terraform/lambda_function/main.py:152-162 | the window ends today and starts on day 1, strictly before its end; it fails (OverflowError) exactly when today is 0001-01-01 |
| `DateRange.BeginOfMonth` | terraform/lambda_function/main.py:165-166 | the returned text parses back to the first day of today's month |
| `DateRange.TodayText` | terraform/lambda_function/main.py:173-174 | the returned text parses back to today |
| `DateRange.TotalCostDateRange` | terraform/lambda_function/main.py:152-162 | the string-level resolver, comparing ISO texts as the code does; `TotalCostDateRangeIsWindow` proves it equals the date-level window |
| `DateRange.TotalCostDateRangeIsWindow` | terraform/lambda_function/main.py:152-162 | the source's string-level resolver returns exactly the ISO texts of the date-level window, and fails with the same error |
| `DateRange.WindowMidMonth` | terraform/lambda_function/main.py:153-154 | when today is not the 1st, the window is from the first of this month to today |
| `DateRange.WindowFirstOfMonth` | terraform/lambda_function/main.py:156-161 | when today is the 1st, the window starts on the first of the previous month; on January 1st that is December 1st of the previous year |
| `DateRange.WindowLength` | terraform/lambda_function/main.py:156-162 | counting forward from the start reaches today after the days of this month before today, or after the whole length of the previous month on the 1st |
| `DateRange.WindowSpan` | terraform/lambda_function/main.py:152-162 | the window covers between 1 and 31 whole days |
| `Message.IsBilled` | terraform/lambda_function/main.py:80 | a service is kept when the `billing == 0.0` test fails, here on cents; `post_teams` applies the same test (main.py:100); `BilledInInputOrder` shows the kept services are exactly the non-zero ones, in input order |
| `Message.Billed` | terraform/lambda_function/main.py:76-82 | every kept service has a non-zero amount; `BilledInInputOrder` shows it keeps exactly those, in input order |
| `Message.DetailLine` | terraform/lambda_function/main.py:83 | the detail line `　・<service>: <amount> USD`; `DetailLineEc2` and `DetailLineRds` give concrete lines, and `LabelHasNoNewline` shows the amount adds no newline, so the line is a single line whenever the service name has none |
| `Message.DetailLines` | terraform/lambda_function/main.py:75-83 | the `details` list; `CollectDetails` shows the loop builds it, and `DetailTextEmpty`, `DetailTextLines` and `TeamsFactsMatchDetails` describe it |
| `Message.Join` | terraform/lambda_function/main.py:85 | `"\n".join`; `SplitJoin` shows splitting on newlines gives the lines back for one or more lines, none containing a newline, and `JoinEmpty` that the text is empty exactly when there are no lines, when no line is empty |
| `Message.Title` | terraform/lambda_function/main.py:73 | the title f-string; `TitleFields` recovers its start label, end label and amount, and `JuneReportTitle` gives a full example |
| `Message.GetMessage` | terraform/lambda_function/main.py:64-85 | `get_message`; `GetMessageFailures` gives its error cases, `TitleFields` its title, `DetailTextEmpty` and `DetailTextLines` its detail text |
| `Message.CollectDetails` | terraform/lambda_function/main.py:75-83 | the loop with `continue` yields the detail line of each non-zero service, in input order |
| `Message.BilledInInputOrder` | terraform/lambda_function/main.py:76-82 | the listed services are the input services at a strictly increasing list of positions; a position is listed exactly when its amount is not zero |
| `Message.SplitJoin` | terraform/lambda_function/main.py:85 | splitting `"\n".join(lines)` on newlines gives the lines back, for one or more lines, none containing a newline |
| `Message.DetailTextEmpty` | terraform/lambda_function/main.py:75-85 | the detail text is empty exactly when every amount is zero, for any input |
| `Message.DetailTextLines` | terraform/lambda_function/main.py:75-85 | when some amount is not zero and no service name contains a newline, the detail text splits into one line per non-zero service, in input order |
| `Message.GetMessageFailures` | terraform/lambda_function/main.py:64-85 | `get_message` fails exactly when a period text is not a date or the end is 0001-01-01; a bad start is reported before a bad end, an end of 0001-01-01 gives OverflowError, and on success the detail text is the joined detail lines |
| `Message.TitleFields` | terraform/lambda_function/main.py:65-73 | when `get_message` succeeds, the title shows the start as `MM/DD`, then `～`, then the last covered day (the day whose next day is the exclusive end), and an amount that is the `.2f` text of the total and reads back to it |
| `Message.EndLabelMonthEnds` | terraform/lambda_function/main.py:67-69 | end 2023-07-01 shows `06/30` and end 2024-01-01 shows `12/31`: the previous day crosses a month end and a year end |
| `Message.EndLabelFebruary` | terraform/lambda_function/main.py:67-69 | end 2024-03-01 shows `02/29` and end 2023-03-01 shows `02/28`: the previous day follows the leap-year rule |
| `Message.TitleExample` | terraform/lambda_function/main.py:64-73 | the period 2023-06-01 to 2023-07-01 with total 123.46 gives the title `06/01～06/30の請求額は、123.46 USDです。` |
| `Message.DetailExample` | terraform/lambda_function/main.py:75-85 | EC2 10.00, S3 0.00, RDS 5.01 give two lines, EC2 then RDS, and S3 is dropped |
| `Facts.ToKeyed` | terraform/lambda_function/main.py:103-107 | the `dict_tmp` of one service: its label, its name and its amount as sort key; `ReadLabelOfLabel` ties the label to the key |
| `Facts.CollectFacts` | terraform/lambda_function/main.py:95-108 | the `facts` list before sorting; `CollectKeyed` shows the loop builds it, and `CollectedWithBilling` that each amount keeps its services in input order |
| `Facts.CollectKeyed` | terraform/lambda_function/main.py:95-108 | the first loop keeps one keyed fact per non-zero service, in input order |
| `Facts.StripKey` | terraform/lambda_function/main.py:113-114 | `del item["billing"]` on one fact; `StripKeepsLabelled` shows stripping keeps the facts of each amount in order |
| `Facts.StripKeys` | terraform/lambda_function/main.py:112-114 | deleting the key keeps each fact's label and service name, in the same position |
| `Facts.BuildFacts` | terraform/lambda_function/main.py:95-114 | the collect loop, the sort and the strip loop together compute the facts list `TeamsFacts` |
| `Facts.Insert` | terraform/lambda_function/main.py:110 | one insertion step of the stable descending sort; `InsertPermutes`, `InsertSorted` and `InsertStable` show it adds the element, keeps the amounts non-increasing and puts it ahead of the entries with the same amount, which come later in the input |
| `Facts.SortByBilling` | terraform/lambda_function/main.py:110 | `sorted(facts, key=billing, reverse=True)`; `SortPermutes`, `SortIsStableDescending` and `StableSortsAgree` show it is the unique stable descending sort |
| `Facts.TeamsFacts` | terraform/lambda_function/main.py:95-114 | the facts list of the card; the `TeamsFacts*` lemmas below give its order, contents and ties |
| `Facts.SortPermutes` | terraform/lambda_function/main.py:110 | the sort is a permutation of its input |
| `Facts.SortIsStableDescending` | terraform/lambda_function/main.py:110 | the sorted amounts never increase, and for every amount the entries with it keep their input order |
| `Facts.StableSortUnique` | terraform/lambda_function/main.py:110 | two lists that are both non-increasing and agree, amount by amount, on the order of their entries are the same list |
| `Facts.StableSortsAgree` | terraform/lambda_function/main.py:110 | any two stable descending sorts of the same input are equal, so the model's sort gives what Python's `sorted` gives |
| `Facts.TeamsFactsDescending` | terraform/lambda_function/main.py:95-114 | there is one fact per non-zero service, every name is an amount label, and the amounts read from the labels never increase |
| `Facts.TeamsFactsPermutation` | terraform/lambda_function/main.py:95-114 | the posted facts are a permutation of the (label, service) pairs of the non-zero services |
| `Facts.TeamsFactsMatchDetails` | terraform/lambda_function/main.py:95-108 | the facts, shown as detail lines, are a permutation of the detail text's lines, so both list the same services with the same amounts |
| `Facts.TeamsFactsStable` | terraform/lambda_function/main.py:110-114 | for every amount, the facts showing it appear in the order their services came from Cost Explorer |
| `Facts.TeamsFactsExample` | terraform/lambda_function/main.py:95-114 | EC2 10.00, S3 0.00, RDS 5.01, Lambda 10.00 give EC2, Lambda, RDS: largest first, ties in input order, zero dropped |

## Left out

- `lambda_handler`, `get_total_billing` and `get_service_billings` (main.py:11-61) are boto3 Cost Explorer calls and response plumbing. The model starts from their results: the period texts, the total and the per-service amounts.
- The webhook POST, its exception handling, `json.dumps` and the fixed MessageCard fields (main.py:116-149) are network I/O and serialisation. Only the `facts` list that goes into the card is modelled.
- `round(float(x), 2)` and the parsing of amount strings are binary floating point. Amounts are taken as already-rounded whole cents, and no rounding rule is modelled. No half-up rule holds in the code: `round(float("5.005"), 2)` is `5.0`, because 5.005 is stored just below that value. A `ValueError` from a malformed amount string is not modelled either.
- A total that rounds to negative zero prints as `-0.00` in Python. Whole cents cannot represent that, so the model prints `0.00`.
- The webhook URL read from the environment (main.py:8) is configuration for the POST. The system clock `date.today()` becomes the `today` parameter.
- `get_prev_day` (main.py:169-170) is never called.
- Stepping back one day from 0001-01-01 raises `OverflowError` in the code. The model keeps it as `Err(OverflowError)`, both in `DateRange.Window` (today is 0001-01-01) and in `Message.GetMessage` (the end is 0001-01-01).
- `print` logging of the title, the detail text and the HTTP status is left out.
- DateText.ParseIso: accepts only the zero-padded `YYYY-MM-DD` form written with ASCII digits. Python's `strptime` also accepts a one-digit month or day (`2023-7-1`), a day padded with a space (`2023-07- 1`), and digits from other scripts, such as a full-width year `２０２３`. The model returns `ValueError` for all of these. `isoformat` and Cost Explorer always write the zero-padded ASCII form. The text of the raised `ValueError` is modelled as the rejected input, not Python's wording.
- Message.DetailTextLines: the split statement requires that no service name contains a newline, because a name with a newline splits into more lines than there are services. `Message.DetailTextEmpty` holds for every input.
