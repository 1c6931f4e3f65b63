# Meme-token tracker: normaliser, eligibility filter and dedup ledger

This Dafny project models the decision core of a Solana meme-token tracker.
The bot polls the DexScreener token feed and normalises each feed record into
a canonical token record. For every token whose address it has not processed
yet, it asks an on-chain audit service for holder and dev-wallet data. It
applies a fixed set of nine threshold checks and sends a Telegram alert when
all of them pass. It then records the address in a persistent `processed`
table, so no address is decided twice.

Modules (one per source file, plus `Wrappers`):

- `Wrappers` (`wrappers.dfy`): `Option` for dictionary keys that may be absent, `Result` for the KeyError that aborts a batch.
- `Settings` (`settings.dfy`): the threshold constants of `config/settings.py`, with `Decimal` values as exact `real`s.
- `DexProcessor` (`dex_processor.dfy`): the feed record (`RawToken`, every key optional), the token record (`Token`), the locked-liquidity percentage and the normaliser. `Normalize` is one loop iteration and `NormalizeAll` the whole batch. `ProcessData` is the loop itself, proved equal to `NormalizeAll`.
- `Bot` (`bot.dfy`): the nine-check filter, built like the source as a list of booleans passed to `all`. It also has the decision and ledger semantics as functions (`Decide`, `Step`, `Cycle`, `Run` over a `LedgerState`) and the class `MemeTrackerBot`. The class holds the `processed` table as a set. It also keeps ghost logs of the addresses sent to the audit client and of the alerts handed to the notifier. Its methods are proved to change the state exactly as the ledger functions say.

The audit client is a parameter: a function from address to `Audit` record for each polling cycle. The notifier is the alert log. The invariant `Inv` says that every address is audited at most once and alerted at most once, and that every alert's dev-sold flag is false. It holds initially and after any finite sequence of cycles.

The code, and so the model, behaves as follows:

- No market-cap history is kept. `previous_mcap` is always 0.
- The nine filter checks are the whole eligibility rule. No further veto is applied.
- `LIQ_LOCK`, `MIN_MARKERS` and `MCAP_INCREASE` are defined but never checked.
- The locked-liquidity percentage is not clamped. `LockedPctUnclamped` gives inputs where it is 200 and 500.
- A record without `address` or `symbol` aborts the whole batch with a KeyError.
- The audit result is taken as it comes, with no defaults for missing fields. It is an input record with four fields.

## Model

| member | source | states |
|---|---|---|
| DexProcessor.CalcLockedPct | core/dex_processor.py:34-37 | locked / liquidity * 100 when liquidity is present and positive; 0 when it is zero or negative; locked * 100 when liquidity is absent (divisor 1); never a division by zero |
| DexProcessor.LockedPctBothAbsent | core/dex_processor.py:35-37 | with neither `liquidity` nor `lockedLiquidity` present the percentage is 0 |
| DexProcessor.LockedPctWithinRange | core/dex_processor.py:35-37 | when 0 <= locked <= liquidity the percentage lies in [0, 100] |
| DexProcessor.LockedPctUnclamped | core/dex_processor.py:35-37 | the percentage is not clamped: locked 20 of liquidity 10 gives 200, locked 5 with liquidity absent gives 500 |
| DexProcessor.Normalize | core/dex_processor.py:19-31 | a record succeeds exactly when `address` and `symbol` are present; a missing `address` raises KeyError('address') first, then a missing `symbol` raises KeyError('symbol'); address and symbol are copied, url is the dexscreener prefix followed by the address, previous_mcap is 0, locked_liq_pct is the guarded percentage |
| DexProcessor.NormalizeNumericDefaults | core/dex_processor.py:22-28 | absent marketCap, liquidity, volume24h, holders, totalSupply and analysis.markers read as 0, present values are copied |
| DexProcessor.UrlDeterminesAddress | core/dex_processor.py:29 | two normalised records with equal urls come from equal addresses |
| DexProcessor.NormalizeAllElementwise | core/dex_processor.py:16-32 | a batch succeeds exactly when every record is well formed, and then the output has the input's length and its i-th record is the normalisation of the i-th input |
| DexProcessor.NormalizeAllFirstError | core/dex_processor.py:17-21 | a failed batch fails with the KeyError of its first malformed record, all records before it being well formed |
| DexProcessor.NormalizeAllFailsAt | core/dex_processor.py:17-21 | a malformed record after a well-formed prefix aborts the whole batch with its KeyError |
| DexProcessor.ProcessData | core/dex_processor.py:16-32 | the append loop returns exactly the batch normalisation (the records in order, or the first KeyError) |
| Bot.AllMeansEvery | bot.py:53 | `all` of a list of booleans is true exactly when every element is true |
| Bot.PassesFilters | bot.py:41-53 | true exactly when supply <= MAX_SUPPLY, mcap >= MIN_MCAP, liq >= MIN_LIQUIDITY, top10 <= MAX_TOP10, dev_holding <= MAX_DEV_HOLDING, holders >= MIN_HOLDERS, volume >= MIN_VOLUME, dev_transfers == 0 and dev_sold < 0.01 |
| Bot.BoundaryValuesPass | bot.py:43-49 | values equal to the inclusive thresholds are accepted |
| Bot.StrictChecksReject | bot.py:50-51 | dev_sold exactly 0.01 fails; any nonzero dev_transfers fails |
| Bot.FiltersIgnoreUnreadFields | bot.py:42-52 | changing address, symbol, markers, locked_liq_pct, previous_mcap or url never changes the filter's result |
| Bot.AlertFlagsFalse | bot.py:31-37 | when the filters pass, the alert's dev_sold flag (dev_sold > 0.01) and dex_paid flag are false |
| Bot.DecideEffect | bot.py:28-39 | processing a token audits it once, marks its address processed whether or not it alerts, marks nothing else, and alerts exactly when the filters pass |
| Bot.InitialInv | bot.py:55-57 | a bot starting from any persisted table satisfies the ledger invariant |
| Bot.StepKeepsInv | bot.py:22-24 | one loop iteration (skip if processed, else decide) preserves the invariant: audits and alerts at most once per address, every alert after an audit, no alert with dev_sold true |
| Bot.CycleKeepsInv | bot.py:22-24 | one polling cycle preserves the invariant |
| Bot.RunKeepsInv | bot.py:20-26 | any finite sequence of cycles preserves the invariant |
| Bot.CycleEffect | bot.py:22-24 | after a cycle the table is the old table plus the batch's addresses; the logs only grow; the cycle audits exactly the batch's addresses that were not processed before |
| Bot.RepeatedAddressSkipped | bot.py:22-24 | a later occurrence of an address in the same batch is skipped, because the first occurrence marked it |
| Bot.CycleSkipsProcessed | bot.py:22-24 | a batch whose addresses are all processed causes no audit, no alert and no change |
| Bot.CycleIdempotent | bot.py:21-24 | running the same batch a second time, with any audit answers, changes nothing |
| Bot.RunOnlyGrows | bot.py:20-26 | across cycles the processed table and both logs only grow, and an address processed beforehand is never audited again |
| Bot.AlertsAtMostOnce | bot.py:20-39 | starting from a persisted table, no address in it is ever alerted and every other address is alerted at most once, across any sequence of cycles |
| Bot.MemeTrackerBot.constructor | bot.py:17-18 | the bot starts with the persisted table and empty audit and alert logs |
| Bot.MemeTrackerBot.IsProcessed | bot.py:59-61 | true exactly when the address is in the table |
| Bot.MemeTrackerBot.MarkProcessed | bot.py:63-65 | inserts the address; an address already present is refused (the primary key) and nothing changes |
| Bot.MemeTrackerBot.ProcessToken | bot.py:28-39 | the new state is the decision: one audit logged, an alert logged exactly when the filters pass, the address marked |
| Bot.MemeTrackerBot.RunCycle | bot.py:21-24 | the loop over a fetched batch leaves the state that `Cycle` describes |

## Left out

- HTTP fetching (`fetch_tokens`, the aiohttp sessions) and the audit client's network calls. The feed arrives as a sequence of `RawToken` values. The audit client is a function from address to `Audit` for each cycle.
- The audit client's own computations (`_calc_top10`, `_parse_balance`) are not defined in the repository. Its result has no `dev_sold` key, although the filter reads one. The model treats the audit as a four-field record.
- The Telegram notifier and its message template are left out. An alert is a log entry holding the token and the checklist.
- The alert template (core/alert_system.py:13) formats a `liq_lock` key that the normalised token does not have: the token has `locked_liq_pct`. So `trigger_alert` raises KeyError('liq_lock') before sending anything. For a passing token, `_process_token` then never reaches `_mark_processed` (bot.py:39), and the run ends. In the model the notifier always succeeds and the address is marked.
- SQLite: the `processed` table is a set. Commit, durability and storage failures are not modelled.
- The infinite `while True` loop and the 120-second sleep are not modelled. The model covers one cycle (`RunCycle`, `Cycle`) or any finite sequence of cycles (`Run`).
- An exception anywhere in a cycle ends the whole `run` in the source. The model has no such abort: `RunCycle` takes an already normalised batch.
- `Decimal` conversion of non-numeric or `None` values, which raises in the source, is left out. Feed values are typed as reals or integers.
- Decimal division rounds to 28 significant digits. The model divides exact reals.
- Wiring defects are left out: `api_keys` is not imported in bot.py, the audit client's constructor takes no key, and `aiohttp` is not imported by the audit client.
- Bot.MemeTrackerBot.ProcessToken: requires that the address is not yet processed, as the polling loop guarantees. Called on a processed address, the source would audit and maybe alert, then fail on the duplicate insert. That path is not modelled.
