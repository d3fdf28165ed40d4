# Bank-name search form: a Dafny model

The repository is one React component, a form for finding a Japanese bank by
name. At start-up it loads the whole bank directory page by page from a
directory service. As the user types in the bank-name input, it suggests every
bank whose name, hiragana reading or katakana reading contains the typed text.
The list under the input shows nothing, a single "no such bank" line
(該当の銀行は見つかりません), or one clickable entry per suggestion. Clicking an
entry copies the bank's canonical name (`normalize.name`) into the input and
closes the list.

The model has four modules, all drawn from `src/App.js`:

- `Search` (`search.dfy`): the bank record, string `includes`, and the filter
  with its guard for an empty query (`Suggest`). `Includes` is proved equal to
  a separate reference definition of "is a substring" (`IsSubstring`). The
  filter is proved sound, complete and order-preserving: the suggestions are a
  subsequence of the directory and keep every copy of a matching bank.
- `Directory` (`directory.dfy`): the start-up loader `fetchAllBanks`, written
  as a method with a `while` loop and its invariants. The directory service is
  a page source, a function from page number to decoded body. `None` stands
  for a falsy body and `Some(banks)` for an array. The loop is proved against
  the specification functions `LoadedBanks` and `RequestedPages`. Lemmas
  describe those functions: how many pages are appended (at most 24, and
  exactly the run of non-empty pages from page 1), that the result is those
  pages concatenated in page order, and which pages are requested.
- `Panel` (`panel.dfy`): the three-way decision of `bankNameMessage`, as a
  function `BankNameMessage` that returns a `Message` datatype instead of
  markup.
- `Form` (`form.dfy`): the component state as a class `BankForm`, with one
  field per state variable: `bankName`, `suggestedBanks`, `isFocused`,
  `isSuggestedOpen`, `bankCode`, `branchCode` and `allBanks`. Each event
  handler is a method that makes the state updates the handler issues. The
  handlers all keep `Valid()`: an empty input has no suggestions, and every
  suggestion matches the current input. `OneBankScenario` walks the form
  through typing a reading of a one-bank directory and clicking the
  suggestion; `TypedBeforeLoadScenario` types before the directory has
  loaded.

Behaviour of the component worth knowing; the model follows the code:

- Focusing the input only sets `isFocused`. It does not open the suggestion
  list.
- The list starts open: `isSuggestedOpen` is initially true.
- Selecting a suggestion does not set `bankCode`; `bankCode` and
  `branchCode` are declared but never written.
- Nothing reconciles branch names with branch codes. That code exists only as
  commented-out fragments.
- An empty input shows the "no such bank" line while the input has focus,
  and nothing when it does not.
- When the directory load finishes, the suggestions are not recomputed.
  Suggestions computed for text typed before the load completed stay as they
  were: typically empty, so the "no such bank" line is shown.
  `LoadAllBanks` states this, and `TypedBeforeLoadScenario` shows it.

## Model

| member | source | states |
|---|---|---|
| Search.Includes | src/App.js:45-47 | a transcription of `includes`; its contract states that every string includes the empty string and that a string never includes a longer one; `IncludesIsSubstring` carries its meaning |
| Search.Matches | src/App.js:44-47 | a transcription of the filter's callback: name, hiragana or katakana includes the value; `MatchesIsSubstring` carries its meaning |
| Search.IncludesIsSubstring | src/App.js:45-47 | the `includes` test holds exactly when the query occurs in the string as a contiguous substring, in both directions |
| Search.MatchesIsSubstring | src/App.js:44-47 | a bank passes the filter test exactly when the query is a substring of its name, its hiragana reading or its katakana reading |
| Search.Filter | src/App.js:43-48 | every bank the filter keeps is an entry of the list and passes the test; the result is never longer than the list |
| Search.FilterComplete | src/App.js:43-48 | every entry of the list that passes the test is kept (no false negatives) |
| Search.FilterIsSubsequence | src/App.js:43-48 | the kept banks are a subsequence of the list: relative order is preserved |
| Search.FilterCounts | src/App.js:43-48 | each matching bank is kept as many times as the list holds it, and a non-matching bank never appears |
| Search.FilterEmpty | src/App.js:43-48 | the filter returns nothing exactly when no entry of the list passes the test |
| Search.Suggest | src/App.js:42-52 | the `if (value)` guard around the filter; its contract states that every suggestion comes from a non-empty query, is in the directory and matches; `SuggestSpec` and `SuggestOrder` carry the rest |
| Search.SuggestSpec | src/App.js:42-52 | an empty query suggests nothing; for a non-empty query, a bank is suggested exactly when it is in the directory and the query is a substring of its name, hiragana or katakana |
| Search.SuggestOrder | src/App.js:42-52 | the suggestions are a subsequence of the directory and, for a non-empty query, keep every copy of every matching bank |
| Directory.PageNumbers | src/App.js:16-26 | the requested page numbers are 1, 2, ..., n in increasing order |
| Directory.RunLengthUpTo | src/App.js:19-30 | if pages `from` to `stop - 1` have data and page `stop` is past 24 or has none, the loop appends exactly `stop - from` pages from `from` |
| Directory.RunLengthFacts | src/App.js:19-30 | the appended run never passes page 24, every page in it has data, and the page after it, if at most 24, has none |
| Directory.LoadedCountSpec | src/App.js:19-30 | the number of appended pages is k exactly when k is at most 24, pages 1..k all have data, and page k+1 has none unless k is 24 |
| Directory.PagesPrefix | src/App.js:25 | the accumulator only grows at its end: the first n pages are a prefix of the first m pages when n <= m |
| Directory.PagesAt | src/App.js:25 | each page's banks sit, unchanged and contiguous, in the accumulated list right after the banks of the pages before it |
| Directory.EmptyFirstPage | src/App.js:24-31 | an empty or falsy first page publishes an empty directory after exactly one request |
| Directory.StopsAtEmptyPage | src/App.js:24-30 | with k < 24 pages of data and then an empty page, the directory is those k pages concatenated, and pages 1..k+1 are requested |
| Directory.StopsAtLastPage | src/App.js:19 | when pages 1..24 all have data, exactly 24 pages are requested and appended, whatever later pages hold |
| Directory.FetchAllBanks | src/App.js:14-31 | the loop returns the concatenation of the appended pages and the list of pages it requested, which has at most 24 entries |
| Panel.BankNameMessage | src/App.js:64-78 | a direct transcription of the three-way decision of `bankNameMessage`; `MessageAfterEdit`, `ListingShowsSuggestions` and `Form.ShownListingMatches` carry its properties |
| Panel.MessageAfterEdit | src/App.js:64-78 | after typing: nothing exactly for an unfocused empty input; "no such bank" exactly for a focused empty input or when no bank matches; otherwise entries for all matching banks and only for them |
| Panel.ListingShowsSuggestions | src/App.js:64-77 | a list is shown only for a non-empty input with suggestions: one entry per suggestion, in order, captioned with its `normalize.name`, each matching the input |
| Form.BankForm.Rendered | src/App.js:110-114 | a direct transcription of the `isSuggestedOpen` gate: the decision is rendered only while the list is open; `HandleBankNameClick` states that selecting closes it |
| Form.ShownListingMatches | src/App.js:64-77 | in every state the handlers keep (`Valid()`), a shown list has one entry per suggestion, in order, each suggestion matching the non-empty input |
| Form.BankForm.constructor | src/App.js:5-11 | the initial state: empty input, no suggestions, empty directory, not focused, list open, empty codes |
| Form.BankForm.LoadAllBanks | src/App.js:31 | the directory becomes the loaded list; nothing else changes, and the suggestions are not recomputed |
| Form.BankForm.HandleBankNameInputChange | src/App.js:37-53 | the list opens and the input takes the typed value, whatever it is; the suggestions become those for the value (none for an empty one); the invariant is kept |
| Form.BankForm.HandleFocus | src/App.js:56-58 | only `isFocused` changes, to true |
| Form.BankForm.HandleBlur | src/App.js:59-61 | only `isFocused` changes, to false |
| Form.BankForm.HandleBankNameClick | src/App.js:81-85 | the input takes the chosen name, the suggestions are emptied and the list closes; `bankCode`, `branchCode`, `allBanks` and `isFocused` are unchanged |
| Form.BankForm.ClickSuggestion | src/App.js:69-75 | clicking entry k of a shown list selects the `normalize.name` of the k-th suggestion |

## Left out

- The network: `fetch`, `response.json()`, the page URL and `async`/`await` are replaced by the page source parameter. A failing request or an undecodable body makes the source code throw, which it does not handle, so no failure path is modelled.
- A truthy body that is not an array: the loop stops unless the body has a positive `length` (a non-empty string, an object with a numeric `length`), in which case the code appends the body as one element and goes on to the next page. `Page` has no such value.
- Concurrency: an edit made while the initial load is still running is modelled only as "the edit happens before or after the load". Interleavings inside a handler are not modelled.
- JSX, the CSS import, the `useState`/`useEffect` scheduling and the "no such bank" text. `Message` and `Panel` say which output is rendered, not how.
- The unused `hasMore` variable.
- The commented-out branch-code handler and branch inputs. `bankCode` and `branchCode` are never derived, because the code never writes them.
- Strings: JavaScript strings are sequences of UTF-16 code units, while the model uses sequences of characters. Both `includes` and the emptiness tests compare element by element, so no normalisation is involved either way.
