# holiday-money-tracker: the budget counter, in Dafny

The service keeps one budget, a Rust `u8`, as decimal text in the file
`current_budget`. `GET /` (`home`) reads the file and shows the value.
`POST /add` (`add_budget`) and `POST /subtract` (`subtract_budget`) read the
file, change the value by the request's `current` and write the result back.
This is the whole of the repository's logic; it is small.

The model has two modules.

- `U8Text` (`u8_text.dfy`) covers the two conversions the handlers rely on.
  - `ParseU8` is Rust's `u8::from_str`, the function behind `str::parse::<u8>`.
    It follows the standard library's algorithm: empty text is rejected, a lone
    sign is rejected, one leading `+` is dropped, and then a digit loop runs
    with overflow checks.
  - `IsU8Text` and `DecimalValue` say separately which texts are accepted and
    what they denote. `ParseU8`'s contract ties the algorithm to them.
  - `FormatU8` is `u8::to_string`.
  - Lemmas prove the round trips in both directions.
- `BudgetService` (`budget_service.dfy`) covers the handlers.
  - The file is the class `BudgetFile`. Its `contents` field is
    `Option<string>`, and `None` means the file cannot be read.
  - `ReadBudget` is the read-then-parse step that all three handlers begin with.
  - `Home` is `home` up to rendering. It returns either a message or the
    `Budget` the page would show.
  - `AddBudget` and `SubtractBudget` are methods that overwrite `contents`.
  - `Budget::new(current)` is the datatype constructor `Budget(current)`.
  - The methods `ScenarioMissingFile`, `ScenarioOutOfRange`, `ScenarioAdd`,
    `ScenarioSubtractToZero` and `ScenarioAddOverflow` are clients of the
    handlers. Each one walks through a request sequence and proves the result
    at every step.

The handlers use Rust's `u8` `+` and `-`, which can overflow. The model's
policy is `Reply.Aborted`: the request ends without a response and nothing is
written. This is what a debug build does, because the overflow check panics
before `fs::write` runs. A release build wraps around instead; see Findings.

Where the description of the system and the code differ, the model follows the
code:

- A failed write is not turned into an error status. The code calls `unwrap`
  on `fs::write`, so a failed write aborts the request.
- `home` sends its two error messages as HTML bodies (`Html(...)`) with status
  200, not as plain text.
- The stored text does not have to be canonical. `home` and both mutations
  also accept `+7` and `007`.

## Model

| member | source | states |
|---|---|---|
| `U8Text.ParseU8` | src/main.rs:92 | Accepts exactly the texts made of an optional `+` followed by one or more digits denoting at most 255. An accepted text yields the number it denotes. Empty text, and only empty text, gives `Empty`. |
| `U8Text.AccumulateMeaning` | src/main.rs:92 | The overflow-checked digit loop accepts exactly when the rest of the text is all digits and the whole numeral is at most 255. It then yields the value of the whole numeral. |
| `U8Text.DecimalValueGrows` | src/main.rs:92 | Appending digits never makes a numeral smaller. So once the running value passes 255, the loop can reject right away. |
| `U8Text.FormatU8` | src/main.rs:126 | `to_string` produces a canonical numeral (digits only, no leading zero unless it is "0") that denotes its argument. |
| `U8Text.ParseFormatRoundTrip` | src/main.rs:121-126 | Parsing the text written for `v` gives back `v`, for every `u8`. |
| `U8Text.CanonicalIsFormatted` | src/main.rs:126 | A canonical numeral of at most 255 is exactly what `to_string` writes for its value. |
| `U8Text.TextRoundTrip` | src/main.rs:121-126 | For text that parses, formatting the parsed value gives back the same text if and only if the text was canonical. |
| `U8Text.LeadingZeroAccepted` | src/main.rs:92 | A leading zero is accepted and does not change the result of the parse. |
| `U8Text.NonDigitRejected` | src/main.rs:92-95 | A non-digit anywhere in the text causes rejection, except one leading `+`. This covers white space, a trailing newline and `-`. |
| `BudgetService.ReadBudget` | src/main.rs:117-124 | A file that cannot be read is `Unreadable`. Text that `from_str` rejects is `Unparsable`. Otherwise the result is the value the text denotes. |
| `BudgetService.Home` | src/main.rs:87-95 | An unreadable file gives exactly "No budget found". Unparsable text gives exactly "Invalid budget". Otherwise the page shows the stored value. |
| `BudgetService.HomeExamples` | src/main.rs:92-95 | "300", "256", "", "10\n", " 10", "-1", "+" and "ten" give "Invalid budget". "255", "+7" and "007" are shown as 255, 7 and 7. |
| `BudgetService.BudgetFile.AddBudget` | src/main.rs:116-130 | A read or parse failure answers 500 with body 0 and leaves the file unchanged. A sum above 255 aborts and leaves the file unchanged. Otherwise the file is overwritten with the sum's decimal text and the answer is 201 with the sum. The next read then returns that sum, so a successful add never leaves an invalid budget behind. |
| `BudgetService.BudgetFile.SubtractBudget` | src/main.rs:132-146 | A read or parse failure answers 500 with body 0 and leaves the file unchanged. Subtracting more than is stored aborts and leaves the file unchanged. Otherwise the file is overwritten with the difference's decimal text and the answer is 201 with the difference, which the next read returns. |
| `BudgetService.WrappingAdd` | src/main.rs:125 | Release-build `u8` `+`: the exact sum when it fits. Otherwise the sum minus 256, which is smaller than either operand. |
| `BudgetService.WrappingSub` | src/main.rs:141 | Release-build `u8` `-`: the exact difference when it is not negative. Otherwise the difference plus 256, which is larger than the minuend. |
| `BudgetService.ReleaseAddWraps` | src/main.rs:125-126 | In a release build, adding 10 to a stored 250 writes "4". |
| `BudgetService.ReleaseSubtractWraps` | src/main.rs:141-142 | In a release build, subtracting 10 from a stored 5 writes "251". |

## Left out

- `main` (src/main.rs:100-114) is left out: axum routing, the bind on port 3005, the tokio runtime and tracing are process setup.
- The HTML template and its JavaScript animation (src/main.rs:23-85) and the minijinja `render!` call (src/main.rs:96) are left out. `Home` returns the `Budget` the page would embed, not the HTML.
- The HTTP status of `home` is not modelled. It is 200 for all three outcomes.
- JSON decoding and encoding of `Budget` by serde and axum is left out. A request body that is not a `u8` is rejected by the framework before a handler runs, so a handler's amount is always a `U8`.
- `tokio::fs` is modelled as the `contents` value only. The operating-system errors behind an unreadable file are not modelled.
- A failed `fs::write` is not modelled: writes to `BudgetFile` always succeed. In the source, `unwrap` aborts the request when a write fails.
- `BudgetService.BudgetFile.AddBudget`: `Aborted` models the debug-build panic. The release-build wrap-around is not modelled in the handler; it is the subject of the Findings rows.
- `BudgetService.BudgetFile.SubtractBudget`: `Aborted` models the debug-build panic, as for `AddBudget`.
- `U8Text.ParseU8`: the contract pins down acceptance and the `Empty` case. It does not say which texts give `InvalidDigit` and which give `PosOverflow`, because every handler discards the error kind (`Err(_)`).
- Concurrent requests are not modelled. Each handler call is one atomic step, so the lost update between two interleaved read-modify-write cycles is not represented.

## Findings

| source | as written | input that shows it | evidently intended | confidence | as-written member | corrected member |
|---|---|---|---|---|---|---|
| src/main.rs:125 | `current_budget + body.current` on `u8`. A release build has no overflow check, so the sum wraps modulo 256 and is written. | Stored "250", `POST /add` with `{"current":10}`: the file becomes "4" and the answer is 201 with 4. | The budget never wraps: a sum above 255 is refused and the stored value is kept. | not executed | BudgetService.ReleaseAddWraps | BudgetService.BudgetFile.AddBudget |
| src/main.rs:141 | `current_budget - body.current` on `u8`. A release build wraps modulo 256. | Stored "5", `POST /subtract` with `{"current":10}`: the file becomes "251" and the answer is 201 with 251. | Subtracting more than is stored is refused and the stored value is kept. | not executed | BudgetService.ReleaseSubtractWraps | BudgetService.BudgetFile.SubtractBudget |
