# INVESTOR-BENCH trading-agent core, modelled in Dafny

This project models the deterministic core around the trading agent's memory engine:

- **Portfolios** (`src/portfolio.py`).
  - The single-asset portfolio records each trading action in four history lists and three bounded deques (positions, prices, cited memory ids). From its look-back window it turns the window's return into +1/-1 reinforcement records for the oldest cited memories.
  - The multi-asset portfolio liquidates every holding at the day's prices (`_update_portfolio_value`) and normalises raw optimiser weights. It reinforces every symbol's oldest cited memories with the sign of the portfolio-value change over its window.
  - Both portfolios can be checkpointed to a dump record and restored from one.
- **Prompt assembly** (`src/chat/prompt/guardrail.py`, `src/chat/prompt/vllm_prompt.py`).
  - Classifying the symbol into stock, cryptocurrency or ETF.
  - The placeholder and duplication rules of `_format_memories`.
  - The tier sections and the momentum sentence.
  - Choosing the warmup or test closing prompt.
  - The multi-asset prompt's per-symbol loop.
- **Structured-output schemas** (`src/chat/structure_generation/vllm_sg.py`). These are the JSON schemas whose `required` list and per-tier id enums depend on which memory-id lists are present, for one asset and for several.
- **Endpoint post-processing** (`src/chat/endpoint/base.py`).
  - `delete_placeholder_info`, which removes the tiers whose first cited memory is the `-1` placeholder.
  - The validation rules of the four response records.

Module layout:

| module | file | contents |
|---|---|---|
| `Common` | `common.dfy` | `Option`, `Result`, and the Python exceptions the code raises (`ValueError`, `KeyError`, `IndexError`, `TypeError`, a pydantic `ValidationError`) |
| `Tiers` | `tiers.dfy` | The four memory tiers and their id keys |
| `Text` | `text.dfy` | `str(int)` and its inverse, `str.strip`, `str.join`, `str(date)` and the `repr` of a symbol list |
| `Json` | `json.dfy` | JSON values, with objects as insertion-ordered dictionaries (`d[k] = v`, `del d[k]`) |
| `Portfolio` | `portfolio.dfy` | List helpers, trade actions, the single-asset dump and the `SingleAsset` class |
| `MultiPortfolio` | `multi_portfolio.dfy` | Liquidation, weight normalisation, the multi-asset dump and the `MultiAsset` class |
| `PromptParts` | `prompt_parts.dfy` | What both prompt constructors share: classification, `_add_momentum_info`, memory lines and openings |
| `GuardrailPrompt` | `guardrail_prompt.dfy` | `_format_memories` and `GuardrailPromptConstructor.__call__` |
| `VllmPrompt` | `vllm_prompt.dfy` | The single-asset and multi-asset vLLM prompt constructors |
| `StructureSchema` | `schema.dfy` | The single-asset and multi-asset vLLM schema builders |
| `Endpoint` | `endpoint.dfy` | `delete_placeholder_info` (as written and corrected) and the response records |

How the model is written:

- Stateful code is written as classes with `modifies` clauses:
  - `Portfolio.SingleAsset`;
  - `MultiPortfolio.MultiAsset`;
  - `Endpoint.ValidatedOutput`, the dictionary that `delete_placeholder_info` edits in place.
- Python loops are methods with loop invariants:
  - the liquidation loop;
  - the in-place weight normalisation over an array;
  - the feedback assembly;
  - the schema and prompt loops over symbols.
- Each method's result, or the state it leaves (through `ToDump`), is proved equal to a specification function. The source's promises are proved about those functions as lemmas.
- Exceptions the code raises are `Err` results carrying the exception.

## Model

| member | source | states |
|---|---|---|
| Common.CoveredPrefix | src/chat/prompt/vllm_prompt.py:406-410 | A loop that looks each symbol up in a dictionary gets through exactly the leading symbols present there, and stops at the first one that is absent |
| Tiers.IdKeyInjective | src/chat/structure_generation/vllm_sg.py:54-91 | The four `<tier>_memory_ids` keys are pairwise distinct |
| Text.NatToString | src/chat/structure_generation/vllm_sg.py:56 | `str(n)` of a natural number is a non-empty digit string, one digit long exactly when `n < 10` |
| Text.IntRoundTrip | src/chat/structure_generation/vllm_sg.py:56 | Every id rendered with `str` reads back with `int` as the same integer |
| Text.IntToStringInjective | src/chat/structure_generation/vllm_sg.py:56 | Distinct ids render to distinct enum strings |
| Text.Strip | src/chat/prompt/vllm_prompt.py:188 | `str.strip()` returns the middle slice of its input with every leading and trailing whitespace character removed, and the result neither starts nor ends with whitespace |
| Text.JoinLength | src/chat/prompt/vllm_prompt.py:186-191 | `sep.join(parts)` has the parts' total length plus one separator fewer than there are parts |
| Text.ZeroPad | src/chat/prompt/guardrail.py:226-228 | The zero-padded fields of `str(date)` are at least the field width and read back as the same number |
| Text.QuoteAll | src/chat/prompt/vllm_prompt.py:403-405 | Each symbol of the listed `trading_symbols` is quoted, in order |
| Json.Keys | src/chat/structure_generation/vllm_sg.py:55 | A dictionary's keys, in insertion order |
| Json.Lookup | src/chat/endpoint/base.py:19 | `key in d` holds exactly when the lookup finds a value |
| Json.Put | src/chat/structure_generation/vllm_sg.py:55 | `d[key] = value`: the key then maps to the value and no other key changes. An existing key keeps its place; a new one goes last |
| Json.PutKeepsUnique | src/chat/structure_generation/vllm_sg.py:55-61 | Writing a key never duplicates a key |
| Json.PutTwice | src/chat/structure_generation/vllm_sg.py:135 | Writing the same key twice keeps only the second value, as merging into `temp_properties` does for a repeated symbol |
| Json.PutCommutesOnLookup | src/chat/structure_generation/vllm_sg.py:54-91 | Writes to two different keys commute with respect to every lookup |
| Json.Without | src/chat/endpoint/base.py:23 | The key list without `key` keeps every other key and drops `key` |
| Json.Delete | src/chat/endpoint/base.py:23 | `del d[key]` makes `key` absent, keeps every other key's value, and keeps the other keys in order |
| Json.DeleteAbsent | src/chat/endpoint/base.py:19-23 | Removing a key that is absent changes nothing |
| Portfolio.PositionStateTransition | src/portfolio.py:223-230 | BUY gives LONG (1), SELL gives SHORT (-1), HOLD gives NEUTRAL (0). The position's value equals the direction `action_mapping` assigns the action (src/portfolio.py:406-410) |
| Portfolio.PairwiseDiff | src/portfolio.py:39-40 | One fewer element than the input (none for an empty one); element `i` is `xs[i+1] - xs[i]` |
| Portfolio.ElementWiseMul | src/portfolio.py:43-44 | `map(mul, a, b)` stops at the shorter list; element `i` is `a[i] * b[i]` |
| Portfolio.Accumulate | src/portfolio.py:52-53 | Element `i` of `accumulate` is the sum of the first `i + 1` inputs |
| Portfolio.CumSum | src/portfolio.py:52-53 | An `IndexError` exactly for an empty list, otherwise the list's sum |
| Portfolio.Telescope | src/portfolio.py:197-200 | The sum of pairwise differences is the last element minus the first |
| Portfolio.MulByOnes | src/portfolio.py:435-440 | Multiplying by a list of ones of the same length leaves the list unchanged |
| Portfolio.DequeFrom | src/portfolio.py:150-158 | `deque(xs, maxlen)` holds `min(len(xs), maxlen)` items |
| Portfolio.DequeAppend | src/portfolio.py:187-191 | Appending to a deque with a `maxlen` keeps it within `maxlen`, places the new item last, and keeps the newest items of the extended list |
| Portfolio.DequeFromAppend | src/portfolio.py:187-191 | Building a bounded deque and then appending equals building it from the extended list |
| Portfolio.WindowReturn | src/portfolio.py:197-200 | The reward over a window of `n + 1` prices and `n` positions weighs each position by the price move into the step it was recorded at: the position recorded with price p_t counts p_t - p_(t-1). The sum over the window is `HeldReturn` |
| Portfolio.Reinforce | src/portfolio.py:204-209 | One `AccessSingle` per cited id, in order, each carrying the given feedback |
| Portfolio.ChooseInit | src/portfolio.py:122-125 | Giving both a configuration and a dump, or neither, is a `ValueError`; otherwise the one given is used (also src/portfolio.py:163-166) |
| Portfolio.SingleDump.Restored | src/portfolio.py:146-162 | Loading a dump rebuilds each deque with its `maxlen`, so the result fits its bounds |
| Portfolio.SingleDump.Recorded | src/portfolio.py:168-192 | The new position is the action's transition and the date is appended. With a price, exactly one element is appended to each history list (the appended position equals the new position's value) and each deque gets its newest item. Without a price, the `KeyError` leaves everything after the date untouched |
| Portfolio.SingleDump.Feedback | src/portfolio.py:194-210 | Empty while the history is no longer than the window. Otherwise the records are the oldest cited ids in order, all carrying the same feedback, +1 or -1 |
| Portfolio.RestoreBounded | src/portfolio.py:146-162 | Loading a dump that already fits its bounds loses nothing |
| Portfolio.RecordedNewest | src/portfolio.py:187-191 | After a recorded step, the newest item of each deque is the position, price and evidence just recorded |
| Portfolio.RecordedWindowed | src/portfolio.py:182-191 | Recording keeps each deque equal to the newest part of its history list: the positions and evidence of the last `L` steps and the prices of the last `L + 1` |
| Portfolio.FeedbackFollowsHeldReturn | src/portfolio.py:194-210 | For a window of `L >= 1` steps, once the history is longer than the window, feedback does not fail. It is nothing when the last `L` recorded positions, each weighed by the price move into its own step, sum to zero. Otherwise every id cited `L` steps ago gets that sum's sign |
| Portfolio.FeedbackEmptyWindow | src/portfolio.py:194-200 | With a window of size 0 and anything recorded, the price deque holds one price, there is no difference to sum, and feedback raises `IndexError` from `cumsum` |
| Portfolio.SingleAsset.InitFromConfig | src/portfolio.py:126-145 | The portfolio trades the first configured symbol. It starts NEUTRAL with empty histories and deques |
| Portfolio.SingleAsset.InitFromDump | src/portfolio.py:146-162 | The portfolio's state is the restored dump |
| Portfolio.SingleAsset.Equals | src/portfolio.py:259-273 | `__eq__` holds exactly when all ten fields agree |
| Portfolio.SingleAsset.RecordAction | src/portfolio.py:168-192 | `record_action` moves the state to `Recorded` and keeps the deque bounds. It fails with `KeyError(symbol)` exactly when the traded symbol's price is missing |
| Portfolio.SingleAsset.GetFeedbackResponse | src/portfolio.py:194-210 | The feedback of the current state: nothing while the history is no longer than the window |
| Portfolio.CheckpointRoundTrip | src/portfolio.py:232-257 | Saving to a dump and loading it back gives a portfolio equal under `__eq__` |
| Portfolio.NewSingleAsset | src/portfolio.py:117-166 | A `ValueError` when both or neither of configuration and dump are given, an `IndexError` for a configuration without symbols. A configured portfolio's state is `FreshSingle` of the configuration (first symbol, configured window, NEUTRAL, nothing recorded). A loaded one is the restored dump |
| Portfolio.FreshRestores | src/portfolio.py:126-145 | A freshly configured single-asset portfolio keeps its deques in step with its records, and a checkpoint of it loads back to the same state |
| MultiPortfolio.LiqStep | src/portfolio.py:372-378 | One loop turn zeroes the symbol's shares. It adds the holding's worth to the long value (long holding) or to the buying power (short holding) |
| MultiPortfolio.Liquidate | src/portfolio.py:371-378 | The loop over the symbols keeps the set of symbols that have share counts |
| MultiPortfolio.PricedPrefix | src/portfolio.py:372-373 | The loop gets through exactly the leading symbols that have both shares and a price |
| MultiPortfolio.LiquidateZeroes | src/portfolio.py:378 | Every symbol the loop passes ends with 0.0 shares, and every other symbol keeps its share count |
| MultiPortfolio.LiquidationValue | src/portfolio.py:369-383 | Over distinct symbols, the final value is the old buying power plus the mark-to-market value of the holdings |
| MultiPortfolio.PricedPrefixExact | src/portfolio.py:370-372 | Where the loop stops is determined: a count such that every symbol before it has shares and a price and the symbol at it (if any) lacks one is the count the loop reaches |
| MultiPortfolio.LiquidateLoop | src/portfolio.py:370-378 | The loop stops at the first symbol lacking shares or a price. Its state is the liquidation of the symbols before it |
| MultiPortfolio.SellOne | src/portfolio.py:371-377 | One turn of the loop on the loop's variables is one liquidation step: a long holding's worth goes to the value, a short one's to the buying power, and the share count becomes 0.0 |
| MultiPortfolio.AbsSum | src/portfolio.py:362 | `sum(abs(w))` is never negative |
| MultiPortfolio.Divided | src/portfolio.py:364-365 | Each weight divided by the sum, in place of the weight |
| MultiPortfolio.Normalized | src/portfolio.py:361-366 | Normalisation keeps the number of weights |
| MultiPortfolio.AbsSumZero | src/portfolio.py:362-363 | The absolute values sum to zero exactly when every weight is zero |
| MultiPortfolio.AbsSumDivided | src/portfolio.py:362-365 | Dividing by a positive sum divides the absolute sum by it |
| MultiPortfolio.NormalizedUnit | src/portfolio.py:361-366 | After normalising weights that are not all zero, their absolute values sum to 1 |
| MultiPortfolio.NormalizedAllZero | src/portfolio.py:363 | All-zero weights are left unchanged |
| MultiPortfolio.NormalizedSign | src/portfolio.py:361-366 | Normalisation keeps every weight's sign |
| MultiPortfolio.NormalizeWeights | src/portfolio.py:361-366 | The in-place loop leaves the array holding the normalised weights |
| MultiPortfolio.Repeat | src/portfolio.py:458 | `[f for _ in ids]` has one copy of `f` per id |
| MultiPortfolio.Cited | src/portfolio.py:452-453 | The assembly gets through exactly the leading symbols whose evidence deque has a step |
| MultiPortfolio.Assembled | src/portfolio.py:448-461 | One `AccessMulti` per symbol, in `trading_symbols` order. Its ids are the oldest cited ids, and its feedback list has the same length, every entry equal to the direction. A missing symbol is a `KeyError`; an empty deque is an `IndexError` |
| MultiPortfolio.AfterAppend | src/portfolio.py:451-461 | Appending one record and then the rest equals appending the record to what was already built |
| MultiPortfolio.MultiDump.Loaded | src/portfolio.py:307-340 | Loading restores the state as saved, with bounded deques. With `load_for_test` it instead: empties the dates and value history, keeps the last 7 prices per symbol, zeroes the shares, clears the current value, and resets the buying power to the configured cash (src/portfolio.py:318-330) |
| MultiPortfolio.MultiDump.RevalueStatus | src/portfolio.py:369-383 | `_update_portfolio_value` succeeds exactly when every symbol has both a share count and a price |
| MultiPortfolio.MultiDump.Revalued | src/portfolio.py:369-383 | The state after revaluation keeps the deque bounds |
| MultiPortfolio.MultiDump.Settled | src/portfolio.py:379-383 | The state after the loop keeps the deque bounds |
| MultiPortfolio.MultiDump.Feedback | src/portfolio.py:431-433 | Empty while the history is no longer than the window |
| MultiPortfolio.RevaluedSettles | src/portfolio.py:369-383 | After success: every symbol's share count is 0.0, the current value equals the buying power, and that value is appended once to both the history and the window. For distinct symbols it is the old buying power plus the mark-to-market value. A failure leaves the history, the window and the current value alone |
| MultiPortfolio.RevaluedAfter | src/portfolio.py:369-383 | The revalued state is the loop's state at its stopping point. The call's error is `KeyError` of the first unpriced symbol |
| MultiPortfolio.LoadRoundTrip | src/portfolio.py:475-504 | Saving and loading (not for a test) gives back the saved state |
| MultiPortfolio.FeedbackFollowsValueChange | src/portfolio.py:431-446 | Past the window, the reward is the value change from the oldest to the newest value in the window. A zero change gives nothing; otherwise every symbol's oldest ids get its sign. A window of fewer than two values is an `IndexError` |
| MultiPortfolio.MultiAsset.InitFromConfig | src/portfolio.py:288-306 | The configured symbols, cash and window. Empty histories and deques, zero shares for every symbol, no current value |
| MultiPortfolio.MultiAsset.InitFromDump | src/portfolio.py:307-340 | The state is the loaded dump |
| MultiPortfolio.MultiAsset.RecordValue | src/portfolio.py:379-383 | The value becomes the buying power and the current value, and is appended to the history and the bounded window |
| MultiPortfolio.MultiAsset.UpdatePortfolioValue | src/portfolio.py:369-383 | `_update_portfolio_value` returns `RevalueStatus` and leaves the state `Revalued` |
| MultiPortfolio.MultiAsset.AssembleFeedbackResponse | src/portfolio.py:448-461 | The loop's result is `Assembled` for the portfolio's symbols and evidence |
| MultiPortfolio.MultiAsset.GetFeedbackResponse | src/portfolio.py:431-446 | The result is the `Feedback` of the current state |
| MultiPortfolio.NewMultiAsset | src/portfolio.py:278-344 | A `ValueError` when both or neither of configuration and dump are given. From a dump, the result fails exactly when `LoadStatus` does and with its `KeyError`: the first symbol without evidence, else (for a test) the first symbol without prices. A configured portfolio's state is `FreshMulti` of the configuration (its symbols, cash and window, zero shares, nothing recorded, no current value). A loaded one is `Loaded` of the dump |
| MultiPortfolio.CheckLoadable | src/portfolio.py:311-322 | The lookups of the dump branch run over every symbol's evidence first and then, for a test, every symbol's prices; their outcome is `LoadStatus` |
| MultiPortfolio.LoadStatusOutcome | src/portfolio.py:311-322 | Loading succeeds exactly when every symbol has evidence and, for a test, prices. When some symbol lacks evidence, the `KeyError` names the first such symbol, whatever prices are missing |
| MultiPortfolio.FreshLoadsBack | src/portfolio.py:288-344 | A freshly configured multi-asset portfolio is bounded, and a checkpoint of it loads back to the same state, for a test as well as for a resumed run |
| PromptParts.Classify | src/chat/prompt/guardrail.py:215-222 | MSFT, JNJ, UVV, HON, TSLA, AAPL and NIO are stocks; BTC and ETH cryptocurrencies; ETF the ETF. Any other symbol is `ValueError("Invalid symbol: …")`, as in src/chat/prompt/vllm_prompt.py:163-172 |
| PromptParts.AddMomentumInfo | src/chat/prompt/guardrail.py:46-53 | For -1, 0 and 1 the matching sentence is appended; any other value leaves the text unchanged. Also src/chat/prompt/vllm_prompt.py:9-16 |
| PromptParts.MomentumSentenceInjective | src/chat/prompt/guardrail.py:46-53 | The three sentences differ, so the appended sentence identifies the momentum |
| PromptParts.AddMomentumAppends | src/chat/prompt/guardrail.py:282-283 | Adding momentum information to a longer text only touches its end |
| PromptParts.MemoryLines | src/chat/prompt/guardrail.py:256-258 | One line per pair of `zip(ids, texts)`, as many as the shorter list has items; line `k` is `"<id>. <text>"` |
| PromptParts.MemoryLineCitesId | src/chat/prompt/guardrail.py:257 | A memory line starts with its id's rendering, which reads back as the id, followed by `". "` |
| PromptParts.WarmupPrefix | src/chat/prompt/guardrail.py:9 | The warmup opening carries the future record's text at its end, followed by two characters |
| GuardrailPrompt.FormatTier | src/chat/prompt/guardrail.py:150-157 | A tier comes out with both lists exactly when texts and ids are both given or both missing, and never with a single memory |
| GuardrailPrompt.FormatTierCases | src/chat/prompt/guardrail.py:150-184 | Two missing lists become two placeholder texts with ids `[-1, -1]`. A single memory and id are each doubled. Every other case is returned unchanged |
| GuardrailPrompt.FormatTierIdempotent | src/chat/prompt/guardrail.py:150-184 | Formatting twice is formatting once |
| GuardrailPrompt.FormatMemories | src/chat/prompt/guardrail.py:131-195 | Each tier is formatted on its own, independently of the others |
| GuardrailPrompt.Construct | src/chat/prompt/guardrail.py:198-425 | Succeeds exactly for a known symbol with consistent tiers; an unknown symbol is the `ValueError`. The validation prompt is the asset type's warmup prompt in a warmup run and its test prompt otherwise |
| GuardrailPrompt.InformationLayout | src/chat/prompt/guardrail.py:225-283 | The information is the opening, then the four formatted sections, then the momentum block, in that order |
| GuardrailPrompt.OpensByMode | src/chat/prompt/guardrail.py:225-233 | The information starts with the warmup prefix in a warmup run and with the test prefix otherwise |
| GuardrailPrompt.MomentumOnlyAppends | src/chat/prompt/guardrail.py:280-283 | With a momentum given (0 included), the information is the one without momentum followed by the explanation and the sentence |
| GuardrailPrompt.WarmupCitesFutureRecord | src/chat/prompt/guardrail.py:225-228 | A warmup run's information contains the future record's text |
| GuardrailPrompt.SectionOpensWithHeader | src/chat/prompt/guardrail.py:255 | Each tier section starts with its header |
| GuardrailPrompt.SectionHeaders | src/chat/prompt/guardrail.py:255-278 | In the memory block, the short, mid, long and reflection headers stand at increasing positions |
| GuardrailPrompt.HeadersCarried | src/chat/prompt/guardrail.py:255-278 | Headers found in the memory block are found, shifted by the opening's length, in the whole information |
| GuardrailPrompt.HeadersInOrder | src/chat/prompt/guardrail.py:255-278 | Right after the opening, the information always contains the short, mid, long and reflection headers, in that order |
| VllmPrompt.Section | src/chat/prompt/vllm_prompt.py:184-216 | A tier section is emitted exactly when both its texts and its ids are non-empty, and then starts with the tier's header |
| VllmPrompt.SingleAssetPrompt | src/chat/prompt/vllm_prompt.py:163-172 | Fails exactly for an unknown symbol, with `ValueError("Invalid symbol: …")` |
| VllmPrompt.SingleAssetLayout | src/chat/prompt/vllm_prompt.py:174-224 | The prompt is: the mode's opening, the shown tiers in order, the momentum block (only for a truthy momentum), and the mode's closing prompt |
| VllmPrompt.SingleAssetClosesByMode | src/chat/prompt/vllm_prompt.py:220-224 | The prompt ends with the warmup final prompt in a warmup run and with the test final prompt otherwise (also lines 272-276 and 325-329) |
| VllmPrompt.ZeroMomentumIgnored | src/chat/prompt/vllm_prompt.py:217-219 | A momentum of 0 gives the same prompt as no momentum, so the "zero" sentence never appears |
| VllmPrompt.SymbolSectionOutcome | src/chat/prompt/vllm_prompt.py:417-455 | A symbol's tier text is non-empty exactly when the tier's dictionaries are non-empty and the symbol's ids and texts are given. A lookup of a symbol the dictionaries lack fails |
| VllmPrompt.SymbolMomentum | src/chat/prompt/vllm_prompt.py:456-458 | With a non-empty momentum dictionary, a symbol absent from it is a `KeyError` |
| VllmPrompt.BlocksAppend | src/chat/prompt/vllm_prompt.py:416-458 | The text for two runs of symbols is the text for the first run followed by the text for the second |
| VllmPrompt.BlocksFailEarly | src/chat/prompt/vllm_prompt.py:416-458 | Once a prefix of the symbols fails, the whole loop fails the same way |
| VllmPrompt.MultiAssetOutcome | src/chat/prompt/vllm_prompt.py:402-466 | Fails exactly when a warmup run lacks a symbol's future record or a symbol's block fails. A produced prompt starts with the mode's opening and ends with the mode's final prompt, formatted with the symbol list and the date |
| VllmPrompt.FutureRecordDiscarded | src/chat/prompt/vllm_prompt.py:406-410 | The future records' values never affect the prompt; only which symbols have one matters |
| VllmPrompt.SymbolOrder | src/chat/prompt/vllm_prompt.py:416-458 | The symbol blocks appear in the order of `symbols` |
| VllmPrompt.LookUpFutureRecords | src/chat/prompt/vllm_prompt.py:406-410 | The lookup loop gets through exactly the leading symbols that have a future record |
| VllmPrompt.AppendBlock | src/chat/prompt/vllm_prompt.py:416-458 | One turn of the appending loop extends the blocks written so far by the next symbol's block, or fails as that block does |
| VllmPrompt.AppendBlocks | src/chat/prompt/vllm_prompt.py:416-458 | The appending loop computes `Blocks` of the symbols |
| VllmPrompt.BuildMultiAssetPrompt | src/chat/prompt/vllm_prompt.py:386-466 | The constructor, written as its loops, computes `MultiAssetPrompt` |
| StructureSchema.Strings | src/chat/structure_generation/vllm_sg.py:56 | Each string becomes a JSON string, in order |
| StructureSchema.IdTexts | src/chat/structure_generation/vllm_sg.py:56 | The enum holds `str(i)` for each id, in input order |
| StructureSchema.IdTextsRoundTrip | src/chat/structure_generation/vllm_sg.py:56 | Every enum entry reads back as the id it was made from |
| StructureSchema.SingleRequired | src/chat/structure_generation/vllm_sg.py:21-91 | `required` is `["summary_reason"]` (warmup) or `["investment_decision", "summary_reason"]` (test), followed by the keys of the non-empty tiers in the order short, mid, long, reflection |
| StructureSchema.AddTierRequired | src/chat/structure_generation/vllm_sg.py:54-61 | A tier block appends its key to `required` exactly when its id list is non-empty |
| StructureSchema.PresentKeysAll | src/chat/structure_generation/vllm_sg.py:54-91 | The present keys of all four tiers are the four blocks' contributions, in tier order |
| StructureSchema.TierKeysDistinct | src/chat/structure_generation/vllm_sg.py:54-91 | The tier keys are distinct from each other and from `summary_reason` and `investment_decision` |
| StructureSchema.AddTierLookup | src/chat/structure_generation/vllm_sg.py:54-61 | A tier block writes only its own key, and only when its list is non-empty |
| StructureSchema.SingleProperties | src/chat/structure_generation/vllm_sg.py:21-91 | A tier has its property exactly when its list is non-empty: the ids as strings in order, `minItems` 1 for long and 0 otherwise. `summary_reason` is always present; `investment_decision` (enum buy, sell, hold) only in a test run |
| StructureSchema.BaseProperties | src/chat/structure_generation/vllm_sg.py:21-52 | The base schema has the summary reason, the decision only in a test run, and no tier property |
| StructureSchema.ReasonKeys | src/chat/structure_generation/vllm_sg.py:123-125 | `<sym>_summary_reason` for each symbol, in order |
| StructureSchema.DecisionKeys | src/chat/structure_generation/vllm_sg.py:158-161 | `<sym>_investment_decision` for each symbol, in order |
| StructureSchema.SummaryRequired | src/chat/structure_generation/vllm_sg.py:155-161 | In a warmup run, one summary reason per symbol in order. In a test run, all summary reasons first, then all decisions |
| StructureSchema.SymbolStep | src/chat/structure_generation/vllm_sg.py:170-185 | One symbol fails, with a `KeyError`, exactly when the tier's dictionary lacks it |
| StructureSchema.SymbolStepsOutcome | src/chat/structure_generation/vllm_sg.py:169-185 | A tier loop fails exactly when a symbol is missing from the dictionary, with the first missing symbol's `KeyError` |
| StructureSchema.FirstMissing | src/chat/structure_generation/vllm_sg.py:170-171 | A loop that got past the leading symbols and meets a missing one fails with that symbol's `KeyError` |
| StructureSchema.SymbolStepsRequired | src/chat/structure_generation/vllm_sg.py:169-237 | A successful loop keeps what was required. Every symbol whose entry is not `None`, even an empty list, gets its `<sym>_<tier>_memory_ids` property and `required` entry |
| StructureSchema.AddSymbolTierRequired | src/chat/structure_generation/vllm_sg.py:169-237 | A successful tier block keeps what was required and requires every symbol whose entry is given |
| StructureSchema.MultiAssetsRequired | src/chat/structure_generation/vllm_sg.py:169-237 | In a built multi-asset schema, every symbol whose entry in any tier's id dictionary is not `None`, even an empty list, has that tier's `<sym>_<tier>_memory_ids` key among the required keys |
| StructureSchema.MultiAssetsOutcome | src/chat/structure_generation/vllm_sg.py:96-239 | The multi-asset builder fails exactly when some non-empty tier dictionary lacks one of the symbols |
| StructureSchema.TablesOutcome | src/chat/structure_generation/vllm_sg.py:169-237 | The four tier blocks fail exactly when one of their dictionaries is non-empty and lacks a symbol |
| StructureSchema.AddSymbolTierOutcome | src/chat/structure_generation/vllm_sg.py:169-185 | One tier block fails exactly when its dictionary is non-empty and lacks a symbol; an empty dictionary skips the block |
| StructureSchema.MergeTestEntries | src/chat/structure_generation/vllm_sg.py:133-147 | The merging loop builds the test run's decision and reason entries |
| StructureSchema.AddSymbolTierLoop | src/chat/structure_generation/vllm_sg.py:169-185 | The loop over symbols computes the tier block |
| StructureSchema.BuildMultiAssetsSchema | src/chat/structure_generation/vllm_sg.py:96-239 | The builder, written as its loops, computes `MultiAssetsSchema` |
| Endpoint.PlaceholderLed | src/chat/endpoint/base.py:19-22 | A falsy value is not placeholder-led. A truthy value that cannot be indexed as a list of records raises. The value is placeholder-led exactly when its first record's `memory_index` is -1 |
| Endpoint.TierOf | src/chat/endpoint/base.py:19-38 | A key belongs to the tier whose id key it is, and to no other |
| Endpoint.OwnStep | src/chat/endpoint/base.py:19-23 | A block deleting its own tier's key fails exactly on a malformed value; otherwise it removes the tier's key when it is placeholder-led |
| Endpoint.RemoveLookup | src/chat/endpoint/base.py:23 | Removing a tier changes the lookup of that tier's key alone |
| Endpoint.RemoveKeepsOthers | src/chat/endpoint/base.py:19-38 | Removing one tier leaves the other tiers' values and their status unchanged |
| Endpoint.DeletePlaceholdersSteps | src/chat/endpoint/base.py:9-40 | The corrected function fails exactly when a present tier is malformed, with that tier's exception. On success it removes all four placeholder-led tiers |
| Endpoint.RemoveAllLookup | src/chat/endpoint/base.py:19-38 | After the four removals, a key is absent if it was a placeholder-led tier; otherwise its value is unchanged |
| Endpoint.DeletePlaceholdersExact | src/chat/endpoint/base.py:9-40 | The reflection, long, mid and short keys are deleted exactly when present, truthy and led by -1. All other keys and values are left unchanged |
| Endpoint.DeletePlaceholdersNoOp | src/chat/endpoint/base.py:19-40 | An answer with no placeholder-led tier comes back unchanged |
| Endpoint.DeletePlaceholdersIdempotent | src/chat/endpoint/base.py:9-40 | Stripping twice is stripping once |
| Endpoint.AsWrittenAgreesOffMid | src/chat/endpoint/base.py:29-33 | The code as written behaves like the corrected one unless the mid tier is placeholder-led |
| Endpoint.AsWrittenMidFails | src/chat/endpoint/base.py:29-33 | With a placeholder-led mid tier (and the earlier blocks passing), the code as written raises `KeyError("middle_memory_ids")` and leaves the mid tier in place; the corrected code removes it |
| Endpoint.MidPlaceholderCounterexample | src/chat/endpoint/base.py:29-33 | A concrete answer with only a placeholder mid tier: the code as written raises, the corrected code returns the summary alone |
| Endpoint.ValidatedOutput.constructor | src/chat/endpoint/base.py:9 | The dictionary holds the given entries |
| Endpoint.ValidatedOutput.DeleteTierPlaceholder | src/chat/endpoint/base.py:19-23 | One `if` block run in place: its outcome and the new dictionary are `TierStep` of the old one |
| Endpoint.ValidatedOutput.DeletePlaceholderInfo | src/chat/endpoint/base.py:9-40 | The corrected `delete_placeholder_info`, run in place on the same dictionary, computes `DeletePlaceholders` of the old entries |
| Endpoint.MakeSingleFailure | src/chat/endpoint/base.py:43-44 | A generation failure always carries HOLD; any other decision fails validation |
| Endpoint.MakeSingleResponse | src/chat/endpoint/base.py:47-53 | A response validates exactly when its summary reason has at least one character, and then keeps every field |
| Endpoint.MakeMultiFailure | src/chat/endpoint/base.py:56-57 | A multi-asset failure validates exactly when every symbol's decision is HOLD |
| Endpoint.MakeMultiResponse | src/chat/endpoint/base.py:60-66 | A multi-asset response validates exactly when every symbol's summary reason has at least one character |

## Left out

- The memory engine (`MemoryDB`, decay and importance policies, `AccessFeedback*`) is not part of this model. `src/memory_db.py` is not among the source files. `AccessSingle` and `AccessMulti` are plain records of id, symbol and feedback.
- The multi-asset `record_action` is not modelled: the Markowitz optimiser call (src/portfolio.py:353-359) and share and cash placement (src/portfolio.py:385-429). Its placement depends on floating-point optimiser output, and its cash update reads a `cur_weight` left over from the previous loop. The optimiser's weights are an input to `NormalizeWeights`, whose array holds them in dictionary order.
- The file and JSON parts of `save_checkpoint` and `load_checkpoint` (open, orjson) are left out. The model keeps the conversion between the object and its dump record.
- Floating point: prices, values and weights are `real`. Sums are exact, so rounding and the sign of a rounded reward are not modelled.
- Float rendering: `str(future_record)` is taken as a given string (`Option<string>`, `None` rendered as `None`).
- Prompt prose: the long prose constants (explanations, final prompts, validation prompts) are parameters (`Wording`, `Catalogue`, `MultiWording`) rather than literal text. The model verifies their placement and order, not their wording. The short prefixes, headers, placeholders and momentum sentences are modelled literally.
- Config truthiness: the portfolios' `if portfolio_dump and portfolio_config` tests truthiness, so an empty configuration dictionary counts as absent there and as given in the `is not None` test below it. The model has configuration and dump as present or absent only. `PortfolioConfig` holds only the keys the portfolios read.
- Portfolio.SingleAsset.InitFromConfig: requires at least one configured symbol, where the source raises an `IndexError` at src/portfolio.py:128. `Portfolio.NewSingleAsset` models that case as an error.
- Endpoint.PlaceholderLed: an object value (a dictionary), indexed with `[0]`, is modelled as `KeyError("0")` where Python raises `KeyError(0)`.
- Text.QuoteAll: models Python's `repr` of a symbol as the symbol between single quotes. That holds only for symbols without a quote, a backslash or a non-printable character; for those, `repr` switches to double quotes or escapes, which the model does not follow.
- Text.SymbolListRepr: renders `str(list)` of the trading symbols through `Text.QuoteAll`, so it has the same limit for symbols holding quotes, backslashes or non-printable characters.
- Endpoint.MakeSingleResponse, Endpoint.MakeMultiResponse: pydantic's coercion of inputs (strings to `TradeAction`, numeric strings to `int`) happens before these records. The fields are taken already typed, so "a list of ints or None" is a type rather than a check.
- `src/eval_pipeline.py` (pandas metrics), `run.py` (CLI, logging, sleeping), `src/chat/endpoint/guardrails.py` (HTTP calls) and `src/chat/structure_generation/guardrail_sg.py` (dynamic pydantic classes over library validators) are not part of this model.
- Logging calls (`logger.trace`, `logger.info`) have no effect on state and are left out.
- `get_action_record` of both portfolios and `construct_portfolio` are left out. They only copy fields into a dictionary or dispatch on the configuration's type.
- `element_wise_mul_multi` (src/portfolio.py:47-49) is not used by the modelled code and is left out.

## Findings

| source | as written | input that shows it | evidently intended | confidence | as-written member | corrected member |
|---|---|---|---|---|---|---|
| src/chat/endpoint/base.py:29-33 | When `mid_memory_ids` is present and its first record's `memory_index` is -1, the block runs `del validated_output["middle_memory_ids"]`. That key is never present, so the call raises `KeyError` and the mid placeholder is never removed. The short tier's block after it is never reached. | `{"summary_reason": "hold", "mid_memory_ids": [{"memory_index": -1}]}` | Delete `mid_memory_ids`, like the other three blocks delete their own key, and return `{"summary_reason": "hold"}` | not executed | Endpoint.MidPlaceholderCounterexample | Endpoint.ValidatedOutput.DeletePlaceholderInfo |
