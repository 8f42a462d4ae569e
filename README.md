# Exchange-rate dashboard: rate normalisation and conversion

A Dafny model of the arithmetic core of a browser currency dashboard, `script.js`.
The dashboard reads the monobank currency feed and keeps one in-memory rate table.
It converts amounts through the Ukrainian hryvnia (UAH) and shows a CNY calculator with a 3% fee.

- `Rates` (rates.dfy) holds the feed records and the quotes.
  It has the normalisation as a specification function (`BuildTable`, `KeyOrder`) and as the loop of `fetchRates` (`NormaliseFeed`).
  Its class `RateRepository` holds the shared table and replaces it on a successful refresh.
- `Conversion` (conversion.dfy) holds `convertAmount` (`ConvertAmount`) and the CNY fee calculation (`CnyCalc`), with lemmas about both.
- `Dashboard` (dashboard.dfy) holds the card figures of `renderCards`, the selector list of `initConverterOptions` and the selector state with the swap button (class `ConverterForm`).
- `Wrappers` (wrappers.dfy) holds `Option`.

Modelling choices:

- Rates are `real`.
- An absent feed field is `None`.
- JavaScript truthiness of a rate is "present and not zero", so `a || b` becomes `Or(a, b)`.
- A failed `fetch` or `res.json()` is the input `None` of `Refresh`.
- Numeric currency identifiers are `int`.
- JavaScript keeps object keys in insertion order, and an overwrite keeps the key's place. `KeyOrder` models that order. Cards and selector options follow it.

What the code does, in the cases a reader might not expect:

- An empty table converts `x` from `c` to `c` into 0, because the empty-table test (script.js:137) runs before the identity test (script.js:138).
- UAH to foreign divides by `rateBuy`, and foreign to UAH multiplies by `rateSell` (script.js:142, 145).
- Going UAH to f and back therefore multiplies by `sell / buy` (`RoundTrip`). With a positive buy rate and `sell >= buy`, a non-negative amount comes back no smaller than it went out.
- The last leg of the CNY calculation (script.js:182) multiplies by the USD **sell** rate. For 1000 CNY at CNY 5.9/6.1 and USD 41/41.5 it gives 260744.5/41 ≈ 6359.62 UAH.
- The selector fallbacks of script.js:132-133 are from = USD and to = UAH. See the finding below.

## Model

| member | source | states |
|---|---|---|
| `Rates.Relevant` | script.js:46 | Definition: a record is kept when its quote currency is 980 and its source code is one of the six supported ones. `TableKeys` and `IrrelevantRecordIgnored` state what follows from it |
| `Rates.Or` | script.js:49-50 | Definition: JavaScript `a || b` on a numeric field, `a` when it is present and non-zero, `b` otherwise. `CrossOnlyRecord` states its effect |
| `Rates.QuoteOf` | script.js:48-52 | Definition: the stored entry of a kept record, buy and sell each falling back to the cross rate, cross kept as is. `LastWriteWins`, `CrossOnlyRecord` and `TableUsable` state its properties |
| `Rates.BuildTable` | script.js:44-54 | Definition: the table after the records in order, a kept record writing `QuoteOf` under its code over any earlier entry. `TableKeys`, `TableCodesSupported`, `LastWriteWins`, `IrrelevantRecordIgnored` and `SampleFeed` state its properties, and `NormaliseFeed` is proved equal to it |
| `Rates.KeyOrder` | script.js:47-52 | Definition: the key order of the built object, a code appended on its first write only. `KeyOrderListsTable` and `IrrelevantRecordIgnored` state its properties |
| `Rates.NormaliseFeed` | script.js:44-54 | The loop over the feed returns exactly the table `BuildTable(data)` and the key order `KeyOrder(data)` of the records seen so far |
| `Rates.RateRepository.constructor` | script.js:34 | The table starts empty |
| `Rates.RateRepository.Refresh` | script.js:44-66 | On success the table becomes the freshly built table, with nothing merged from the old one. On a fetch or parse failure the table and key order are unchanged. The repository invariant (keys listed once, only supported codes, never UAH) is kept |
| `Rates.TableKeys` | script.js:45-47 | A code is a key of the built table if and only if some record has `currencyCodeB == 980` and a supported `currencyCodeA` that maps to it |
| `Rates.TableCodesSupported` | script.js:10-17 | Every key is one of the six supported codes, and UAH is never a key |
| `Rates.LastWriteWins` | script.js:47-52 | The entry for a code is the quote of the last record that writes that code |
| `Rates.IrrelevantRecordIgnored` | script.js:46 | Inserting a record with another quote currency or an unknown source code (such as 250) anywhere in the feed changes neither the table nor the key order |
| `Rates.KeyOrderListsTable` | script.js:48-52 | The key order lists each key of the built table exactly once |
| `Rates.TableUsable` | script.js:48-52 | If every kept record yields a quote with a non-zero buy rate and a present sell rate (after fallback), every table entry is such a quote |
| `Rates.CrossOnlyRecord` | script.js:49-51 | A record whose buy and sell are absent or zero and whose cross rate is c stores buy = sell = cross = c |
| `Rates.SampleFeed` | script.js:44-54 | The feed USD 41/41.5, EUR cross 44, code 250 gives {USD: 41/41.5, EUR: 44/44/44} in the key order USD, EUR |
| `Conversion.ConvertAmount` | script.js:136-153 | Definition: the empty-table test, then identity, then the three routes through UAH with 0 for a missing quote. It requires only the rates its route reads (`Readable`). The trailing `return amount` of line 152 is unreachable: the function's last branch is `assert false`. The lemma rows below state its properties |
| `Conversion.EmptyTableGivesZero` | script.js:137 | An empty table converts every amount to 0, including from a code to itself |
| `Conversion.IdentityOnNonEmptyTable` | script.js:137-138 | On a non-empty table, converting a code to itself returns the amount, whatever the code's quote holds |
| `Conversion.MissingQuoteGivesZero` | script.js:140-150 | If a quote the route needs is absent, the result is 0, whatever the other quote holds |
| `Conversion.FromBaseRoute` | script.js:140-142 | With f's quote present, UAH to f divides by f's buy rate. Only that rate is read, so f's sell rate and every other quote are unconstrained |
| `Conversion.ToBaseRoute` | script.js:143-145 | With f's quote present, f to UAH multiplies by f's sell rate. Only that rate is read, so f's buy rate and every other quote are unconstrained |
| `Conversion.CrossRoute` | script.js:146-149 | With both quotes present, f to g multiplies by f's sell rate and divides by g's buy rate. Only those two rates are read |
| `Conversion.ViaBase` | script.js:146-149 | For distinct codes, every conversion equals converting into UAH and then out of UAH, whenever both legs can be read |
| `Conversion.Linear` | script.js:136-153 | On every route and every table it can read, converting `k·a + b` gives `k` times the conversion of `a` plus the conversion of `b` (scaling and additivity) |
| `Conversion.RoundTrip` | script.js:140-145 | UAH to f and back gives `x * sell / buy`. With a positive buy rate and sell >= buy, a non-negative amount comes back no smaller |
| `Conversion.SampleConversions` | script.js:136-153 | With the sample table, 100 USD is 4150 UAH, 100 UAH is 100/41 USD, and 100 USD is 4150/44 ≈ 94.32 EUR |
| `Conversion.SparseQuotes` | script.js:136-145 | With only USD's sell rate, 5 USD converts to 5 USD and to 207.5 UAH. A EUR quote with no rates gives 0 from USD |
| `Conversion.CnyCalc` | script.js:168-187 | Definition: the placeholder unless USD and CNY are both quoted, else the amount with the 3% fee, converted CNY to USD and then USD to UAH by `ConvertAmount`. `CnyCalcUnavailable`, `CnyCalcClosedForm` and `CnyCalcExample` state its properties |
| `Conversion.CnyCalcUnavailable` | script.js:173-178 | The calculator shows the placeholder if and only if USD or CNY has no quote. With one of them missing, the other quote is unconstrained |
| `Conversion.CnyCalcClosedForm` | script.js:180-182 | With both quotes the figures are w = base·1.03, w·CNY.sell/USD.buy, and that times USD.sell. Only those three rates are read; CNY's buy rate is unconstrained |
| `Conversion.CnyCalcExample` | script.js:180-186 | 1000 CNY at CNY 5.9/6.1 and USD 41/41.5 gives 1030, 6283/41 USD and 260744.5/41 UAH (between 6359.6 and 6359.7) |
| `Conversion.CnyCalcSparse` | script.js:173-178 | A rate-less CNY quote without a USD quote shows the placeholder |
| `Dashboard.CardOf` | script.js:79-84 | Definition: one card's figures, the name falling back to the code, the spread sell − buy, the average the cross rate if truthy else the mean. `CardsAt` states them per card |
| `Dashboard.Cards` | script.js:76-84 | Definition: one `CardOf` per key, in key order. `CardsAt` and `CardsOfTable` state its properties |
| `Dashboard.CardsAt` | script.js:76-84 | There is one card per key, in key order. Card i shows the key's buy and sell, spread = sell − buy, and average = the cross rate if truthy, else (buy + sell)/2 |
| `Dashboard.CardsOfTable` | script.js:76-84 | For a table with its key order listed once each (the repository invariant) and showable quotes, there is exactly one card per table key, in key order, with distinct codes |
| `Dashboard.KnownCodesAreNamed` | script.js:1-8 | Every supported code has a display name distinct from the code, so the `|| code` fallback of line 80 is never taken for a built table |
| `Dashboard.Currencies` | script.js:115 | Definition: "UAH" followed by the table's keys. `CurrenciesExact` states its properties |
| `Dashboard.CurrenciesExact` | script.js:115 | The options are "UAH" followed by exactly the table's keys in key order, each once, with no repeats |
| `Dashboard.RebuiltValue` | script.js:117-130 | Definition: the value a select reports after it is emptied and refilled, its first option, or empty when there is none. `DefaultsNeverApply` uses it |
| `Dashboard.Assign` | script.js:132-133 | Definition: assigning a value to a select selects the matching option, or none when no option matches |
| `Dashboard.WithDefault` | script.js:132-133 | Definition: `if (!select.value) select.value = fallback`. `DefaultsNeverApply` states that the guard never fires after a rebuild |
| `Dashboard.DefaultsNeverApply` | script.js:114-133 | As written, after the options are rebuilt both selectors read UAH, and the USD/UAH fallbacks never apply |
| `Dashboard.ConverterForm.InitOptionsAsWritten` | script.js:114-133 | The options become the currency list, and from and to both become UAH |
| `Dashboard.IntendedDefaults` | script.js:132-133 | The corrected selection: from is USD whenever USD is quoted (else UAH), to is UAH, and both are offered options |
| `Dashboard.ConverterForm.InitOptions` | script.js:132-133 | The options become the currency list, from takes the intended default, to is UAH, and both are among the options |
| `Dashboard.ConverterForm.constructor` | script.js:114-133 | Before the first `initConverterOptions` the selectors have no options and read the empty string, and the form invariant holds |
| `Dashboard.ConverterForm.Result` | script.js:155-166 | Definition: the figure `updateResult` shows, `ConvertAmount` of the amount between the selected currencies, before `toFixed(2)`. `SwapAndShow` states what the swap button shows |
| `Dashboard.ConverterForm.Swap` | script.js:194-196 | The swap exchanges from and to, leaves the options unchanged, and keeps each selection an offered option or empty |
| `Dashboard.ConverterForm.SwapAndShow` | script.js:193-198 | After the swap, the result box shows the amount still in the input converted from the old `to` to the old `from` |

## Findings

| source | as written | input that shows it | evidently intended | confidence | as-written member | corrected member |
|---|---|---|---|---|---|---|
| script.js:114-133 | Both selects are emptied and refilled with "UAH" first. Appending the first option selects it (the HTML selectedness rule), so `value` is never empty and the fallbacks `USD`/`UAH` never apply. Every refresh, including the periodic one, resets both selectors to UAH→UAH | any table, such as keys [USD, EUR]: after `initConverterOptions` from = UAH and to = UAH | from = USD (when offered) and to = UAH after the options are built | medium, not executed | `Dashboard.DefaultsNeverApply`, `Dashboard.ConverterForm.InitOptionsAsWritten` | `Dashboard.IntendedDefaults`, `Dashboard.ConverterForm.InitOptions` |

## Left out

- DOM creation, `innerHTML` templates, button text and `disabled` state, event-listener wiring, `alert` and `console.error` are presentation only.
- `fetch` and `res.json()` are network I/O. Their failure is the `None` input of `Refresh`. A payload that is not a list, or a `null` item, counts as that failure. Items without the code fields are irrelevant records and are skipped.
- `setInterval` and overlapping refreshes are timing and async interleaving. Each `Refresh` call is one completed refresh.
- The calls made after line 56 (`renderCards`, `initConverterOptions`, `updateResult`, `updateCnyCalc`) are separate functions of the model. If one of them throws, the table has already been replaced. `Refresh` models lines 44-56 and reports success.
- `toFixed(2)`, `toLocaleTimeString` and the currency-unit suffixes are formatting only.
- IEEE-754 behaviour is not modelled. Rates are exact reals, and NaN/Infinity from an absent or zero rate are excluded by preconditions.
- ConvertAmount: requires only the rates its route reads to be usable (`Readable`): the target's buy rate present and non-zero on UAH to f, the source's sell rate present on f to UAH, both on f to g. JavaScript would give NaN or Infinity for an absent or zero rate there. An empty table, equal codes and a missing quote read no rate and carry no precondition.
- CnyCalc: requires the CNY sell rate, a non-zero USD buy rate and the USD sell rate, and only when both quotes are present (`CnyReadable`), for the same reason.
- Cards: requires that every quote shown has buy and sell rates. `toFixed` on an absent rate would throw.
- The `parseFloat(...) || 0` reading of the input fields (lines 156, 171) is left out. Amounts are parameters, and the caller has already turned non-numeric input into 0.
- The `!rates` test (line 137) and the element-existence test of `updateCnyCalc` (line 169) are not modelled. The table is never null here, and the elements are DOM.
- Feed identifiers arriving as strings are not modelled (JavaScript would look them up in `currencyCodes` too, but `===` on `currencyCodeB` would reject them).
