# Currency swap and wallet ranking, modelled in Dafny

Two pieces of decision logic from two front-end widgets, with the rendering
stripped away.

**Currency swap** (`currency_swap.dfy`, module `CurrencySwap`). The swap
form keeps a price list, a source token, a target token, the parsed amount,
a result and an error message. Pressing "Swap" clears the error and the result
and then runs four checks in order. The first check that fails sets its
message, and the later checks do not run:

1. both tokens are selected;
2. the tokens differ;
3. the amount is a number other than zero and not negative;
4. both tokens have an entry in the price list.

If all four pass, the swap stores `rate = to.price / from.price` and
`output = amount * rate`. Each lookup takes the first entry with a matching
currency. Pressing "Switch" exchanges the two selections and clears the result.

`Convert` gives the outcome of one swap as a pure function. The class
`SwapForm` holds the component's state. Its `Swap` and `Switch` methods are
proved to leave that state as `Convert` and the exchange describe, and to
change nothing else.

The rate is the target's price divided by the source's price, exactly as the
code computes it. If the feed quotes each currency's value per unit in a common
currency, this is the reciprocal of the market rate. The model keeps the code's
formula, and `ConvertExample` shows its value on a concrete list.

**Wallet ranking** (`wallet_ranking.dfy`, module `WalletRanking`). A fixed
table gives each blockchain a priority. Osmosis scores 100, Ethereum 50,
Arbitrum 30, and Zilliqa and Neo 20 each. Any other chain gets -99. The page
builds its list in three steps:

- it keeps the balances whose chain is in the table and whose amount is positive;
- it adds a USD value (price times amount, with a missing price counted as 0) and the priority;
- it sorts by descending priority.

ECMA-262 requires `Array.prototype.sort` to be stable from its 2019 edition
on (section 22.1.3.27 of that edition). Entries of equal priority therefore
keep their input order. The sort is modelled as a stable insertion sort over
`seq`.

`options.dfy` holds the shared `Option` type. `None` stands for JavaScript's
`undefined` and for a `NaN` parse result.

Where the system's written specification and the code disagree, the model
follows the code:

- The specification asks for an `InvalidPriceData` failure on a zero price.
  The code has no such check and divides anyway. The model requires every price
  to be positive.
- The specification describes the catalog as a map with unique keys. The code
  searches an array and takes the first match. The model does the same.
- The specification's worked swap example has USDC at 1, ETH at 2000, and swaps
  100 USDC to ETH. It gives rate 0.05 and output 5.0. The code's formula gives
  rate 2000 and output 200000, and `ConvertExample` proves those values.

## Model

| member | source | states |
|---|---|---|
| `CurrencySwap.FirstIndex` | src/problem2/vite-project/src/App.tsx:50-51 | The lookup finds an entry with the requested currency, and no earlier entry has that currency. It finds nothing exactly when no entry has that currency. |
| `CurrencySwap.Convert` | src/problem2/vite-project/src/App.tsx:31-61 | The outcome follows the check order. "Please select both tokens." happens exactly when a token is empty. "Tokens must be different." happens exactly when both are set and equal. "Enter a valid amount greater than 0." happens exactly when the tokens are set and distinct and the amount is NaN or not positive. "Price data unavailable for selected tokens." happens exactly when the first three checks pass and either lookup fails. Success happens exactly when all checks pass and both lookups succeed. On success, rate times the source's first-match price equals the target's first-match price, output equals amount times rate, and both are positive. |
| `CurrencySwap.ConvertReversed` | src/problem2/vite-project/src/App.tsx:35-60 | Exchanging the two tokens changes no rejection and no rejection message. When both directions succeed, their rates multiply to 1. |
| `CurrencySwap.SwapBack` | src/problem2/vite-project/src/App.tsx:58-59 | Converting a successful swap's output back, from the target to the source, succeeds. It gives rate 1/rate and returns exactly the original amount. |
| `CurrencySwap.ConvertExample` | src/problem2/vite-project/src/App.tsx:50-59 | With USDC at 1 and ETH at 2000, swapping 100 USDC to ETH gives rate 2000 and output 200000. |
| `CurrencySwap.SwapForm.constructor` | src/problem2/vite-project/src/App.tsx:17-22 | The initial state has an empty price list, no selections, an amount that parses to NaN, no result and no error. |
| `CurrencySwap.SwapForm.LoadPrices` | src/problem2/vite-project/src/App.tsx:27 | The fetched list replaces the price list. No other field changes. |
| `CurrencySwap.SwapForm.SelectFrom` | src/problem2/vite-project/src/App.tsx:83 | The source selection becomes the chosen token. No other field changes. |
| `CurrencySwap.SwapForm.SelectTo` | src/problem2/vite-project/src/App.tsx:108 | The target selection becomes the chosen token. No other field changes. |
| `CurrencySwap.SwapForm.EnterAmount` | src/problem2/vite-project/src/App.tsx:126 | The amount becomes the parsed input. No other field changes. |
| `CurrencySwap.SwapForm.Swap` | src/problem2/vite-project/src/App.tsx:31-61 | When `Convert` succeeds, the result is `Convert`'s result and the error is "". When `Convert` rejects, the result is null and the error is `Convert`'s message. Afterwards either the error is non-empty and the result is null, or the error is "" and a result is set. Prices, selections and amount do not change. |
| `CurrencySwap.SwapForm.Switch` | src/problem2/vite-project/src/App.tsx:63-67 | The source and target selections are exchanged and the result is cleared. Prices, amount and error do not change. |
| `CurrencySwap.SwitchTwice` | src/problem2/vite-project/src/App.tsx:63-67 | Switching twice restores both selections and leaves no result. Prices, amount and error do not change. |
| `WalletRanking.GetPriority` | src/problem3/problem3.tsx:12-22 | The score is not -99 exactly when the chain is Osmosis, Ethereum, Arbitrum, Zilliqa or Neo. Every score is one of 100, 50, 30, 20 or -99. |
| `WalletRanking.PriorityScores` | src/problem3/problem3.tsx:12-18 | Osmosis scores 100, Ethereum 50, Arbitrum 30, Zilliqa 20 and Neo 20. |
| `WalletRanking.Filter` | src/problem3/problem3.tsx:32 | The output is no longer than the input, and every kept balance has a ranked chain and a positive amount. |
| `WalletRanking.FilterCount` | src/problem3/problem3.tsx:32 | A balance the test accepts occurs as often in the output as in the input. Any other balance does not occur. |
| `WalletRanking.EnrichAll` | src/problem3/problem3.tsx:33-38 | The output has the input's length. Each position holds the enrichment of the balance at that position. |
| `WalletRanking.StripEnrichAll` | src/problem3/problem3.tsx:33-34 | Enrichment keeps currency, amount and blockchain: removing the added fields gives back the input list. |
| `WalletRanking.Insert` | src/problem3/problem3.tsx:39 | The output is the input plus `x`, as a multiset. Every output element is `x` or an input element. |
| `WalletRanking.InsertDescending` | src/problem3/problem3.tsx:39 | Inserting into a list in descending priority order keeps that order. |
| `WalletRanking.SortByPriority` | src/problem3/problem3.tsx:39 | The output is a permutation of the input and is non-increasing in priority. |
| `WalletRanking.InsertStable` | src/problem3/problem3.tsx:39 | Within each priority, the inserted entry comes first and the other entries keep their order. |
| `WalletRanking.SortStable` | src/problem3/problem3.tsx:39 | Within each priority, the sorted list holds the same entries as the input, in the same order. |
| `WalletRanking.StripInsert` | src/problem3/problem3.tsx:39 | Insertion adds exactly the inserted entry's balance to the multiset of underlying balances. |
| `WalletRanking.StripSort` | src/problem3/problem3.tsx:39 | Sorting keeps the multiset of underlying balances. |
| `WalletRanking.PrepareBalances` | src/problem3/problem3.tsx:30-40 | The ranked list is no longer than the input and is non-increasing in priority. |
| `WalletRanking.PreparedFrom` | src/problem3/problem3.tsx:31-38 | Every ranked entry is the enrichment of some input balance that the filter keeps. |
| `WalletRanking.PreparedEntries` | src/problem3/problem3.tsx:32-38 | Each ranked entry's currency, amount and blockchain match an input balance. That balance has a ranked chain and a positive amount. The entry's priority is its chain's score, which is one of 100, 50, 30 or 20, never -99. Its USD value is the price (0 if missing) times the amount. |
| `WalletRanking.PreparedCount` | src/problem3/problem3.tsx:31-39 | Ignoring the added fields, the ranked list is a permutation of the filtered input. A kept balance appears as often as in the input, so duplicates survive. A dropped balance (unranked chain or non-positive amount) does not appear. |
| `WalletRanking.EnrichedWithPriority` | src/problem3/problem3.tsx:31-38 | Before sorting, the entries of any one priority are the kept input balances of that priority, in input order. |
| `WalletRanking.PreparedStable` | src/problem3/problem3.tsx:39 | In the ranked list, the entries of any one priority are the kept input balances of that priority, in input order. |
| `WalletRanking.PrepareExample` | src/problem3/problem3.tsx:30-40 | The input has ETH 1 on Ethereum, OSMO 2 on Osmosis, XYZ 5 on an unknown chain, and ETH 0 on Ethereum. Prices are ETH 2000 and OSMO 1. The ranked list is OSMO (USD 2, priority 100) followed by ETH (USD 2000, priority 50). |

## Left out

- Price fetching (src/problem2/vite-project/src/App.tsx:24-29) is network I/O. `LoadPrices` stands for its success callback. Its failure path, which sets "Failed to fetch prices", is not modelled.
- The balance and price hooks (src/problem3/problem3.tsx:26-27) are external providers. Their results are the parameters of `PrepareBalances`.
- All JSX, animation and row rendering are out, including the row keys and the `toFixed` display formatting. The two-decimal `formatted` field of a ranked balance is also not carried.
- `parseFloat` is abstracted. `EnterAmount` receives the parsed value, with `None` for NaN. Infinity has no counterpart among the reals.
- IEEE-754 arithmetic is replaced by exact reals. That is why rate times price, and the round trip in `SwapBack`, are exact equalities.
- CurrencySwap.Convert: requires every price in the list to be positive. The code divides by the source's price with no check, and a zero price would give Infinity or NaN.
- CurrencySwap.SwapForm.Swap: requires every price in the list to be positive, for the same reason as `Convert`.
- WalletRanking.GetPriority: a chain named like an inherited property of a plain JavaScript object (for example "toString") gets a function from the code, not -99. The model returns -99. The filter drops such a balance either way, because that comparison with -99 is false.
- WalletRanking.PreparedEntries: a currency named like an inherited object property would make the code's USD value NaN. The model treats that currency as having no price, so its USD value is 0.
- React's `useMemo` caching and the batching of state updates are out. Setters are modelled as plain sequential assignments.
