# The options clearing core, modelled and proved

The protocol clears fully collateralised options on Solana with three programs. The **controller** keeps vaults, one
collateral pool for each mint, and the supply of each oToken series. The **settler** (`batch_settler`) executes signed
quotes, holds the makers' oTokens in custody, and takes them out again for cash, by physical delivery through a swap, or
in an emergency. The **oracle** records one expiry price for each underlying and expiry. The pool is shared by many
series and vaults, rounding happens per vault and per redemption, and one `settled` flag covers both settlement and
emergency exit; what the project proves is that the money nevertheless adds up.

How the project is built:

- `Model.dfy` holds all accounts as one record, and an event log from which totals are read. Token accounts are kept one
  by one, with the total of each owner and mint beside them, which is proved to be their sum. `Controller.dfy`,
  `Settler.dfy` and `Oracle.dfy` say for each instruction which accounts it leaves or which error it returns, check by
  check in the order of the code. `Machine.dfy` makes each instruction one atomic step and defines runs; any wallet may
  also move, issue or burn tokens between steps, and the clock only moves forward.
- `Store.dfy`, `ControllerProgram.dfy`, `SettlerProgram.dfy`, `OracleProgram.dfy` and `Runtime.dfy` are the handlers
  themselves: methods that update the fields of a class `Accounts` step by step and call each other as the programs do.
  Each is proved to end where its specification says, the main ones also to keep the books, and `Runtime.Execute` rolls a
  failed one back.
- `Payoff.dfy` and `Oracle.dfy` relate the machine arithmetic to exact arithmetic; `Ints.dfy`, `Bytes.dfy` and `Sums.dfy`
  carry the integer, byte and finite-sum lemmas.
- `PoolBooks.dfy` and `Solvency.dfy` hold the controller's invariants, `SettlerBooks.dfy` those of the settler. The
  `...Steps.dfy` files and `SettlerPools.dfy` show what each settler instruction keeps. `Invariants.dfy` puts every
  instruction together, `TokenLaw.dfy` adds up token accounts against totals and supply, `Progress.dfy` says what never
  goes back, `Conditions.dfy` and `SettlerConditions.dfy` exactly when each instruction goes through, `Frames.dfy` and
  `Authority.dfy` who may change what, `Pauses.dfy` what the pauses stop, `Drift.dfy` which instructions let custody fall
  behind, `WindDown.dfy` when money that is due can be had, `Runoff.dfy` what can shrink what a pool has to spare,
  `Theorems.dfy` states the results over runs, and `Failures.dfy` gives runs that show which allowances are needed.

Terms: a *claim* is what an unsettled vault will take back; a series is *exact* when its collateral scale has no
denominator (calls on mints with at least eight decimals); the *excess* of a series is what it was written for beyond
what is outstanding and was paid; a *gift* is any credit to an account outside the accounted flows; a *forecast* gives
prices to series that have none yet. An exit is *clean* when it burns as many oTokens as the vault is short of.

Where the code and its documentation differ the model follows the code: the custody ledger is found under the seed
`mm_balance` (`programs/batch_settler/src/lib.rs:1249-1258`), not the name the repository's README gives; a quote's limit
is not stored, so one quote may be executed with different signed limits and only the largest bounds its fills; the price
parser treats every verification tag other than zero as one byte long.

Results that are false as first hoped, and what is true instead: pools are not solvent to the last unit
(`Failures.RoundingNeedsDust`), they are so exactly under the condition of `Solvency.ExactlySolventIff`; settlements and
redemptions can lack funds (`Failures.SettlementCanFail`, `Failures.RedemptionCanFail`), they do exactly when the pool
account passed is below what is due (`WindDown.SettlementIff`, `WindDown.RedemptionIff`), which a pool with something to
spare can only be when it is split over several accounts (`Failures.SplitPoolRefuses`); that key and message of an
accepted quote are the ones the signature precompile verified is not certain for every instruction
(`Quotes.ElsewhereVerified`), it is exactly for those whose index fields name the instruction itself
(`Quotes.AcceptanceIsVerificationIff`); solvency does not survive every emergency exit
(`Failures.DirectExitStrandsHolders`), it does exactly under the conditions of `Theorems.DirectExitSolventIff` and
`Theorems.SettlerExitSolventIff`, and always when exits are early.

## Model

| member | source | states |
|---|---|---|
| Theorems.RunSolvent | programs/controller/src/lib.rs:211-353 | Over every run whose emergency exits left no oTokens behind, each pool plus one unit for each writer after the first of each of its inexact series covers all claims of unsettled vaults and the whole outstanding supply, at any prices still to be set |
| Solvency.PoolIdentity | programs/controller/src/lib.rs:211-353 | In every reachable state and at any forecast, claims + outstanding oTokens + excess + gifts = pool balance + rounding loss, to the unit |
| Solvency.ExactlySolventIff | programs/controller/src/lib.rs:211-353 | A pool covers everything without an allowance if and only if rounding lost no more than the excess of its series and the gifts it received, whatever exits were taken |
| Solvency.PoolsSolvent | programs/controller/src/lib.rs:211-353 | In sound books the pool and the rounding loss cover claims and supply at every forecast |
| Solvency.LossBounds | programs/controller/src/lib.rs:545-582 | What a series loses by rounding vault by vault is exactly its whole worth less the floors; it is below the number of writers, and zero for series without a denominator |
| Solvency.LossIsDust | programs/controller/src/lib.rs:545-582 | The loss of a pool is at most one unit for each writer after the first of each inexact series |
| Failures.RoundingNeedsDust | programs/controller/src/lib.rs:545-582 | A concrete run of two smallest puts after which the pool is one unit short: solvency without the allowance is false |
| Failures.RedemptionCanFail | programs/controller/src/lib.rs:284-353 | The same two puts run to expiry: the holder of both, owed one unit, is refused with `InsufficientFunds` |
| Failures.SettlementCanFail | programs/controller/src/lib.rs:211-282 | A concrete run without any exit in which a vault that owes nothing cannot have its unit back: its settlement is refused with `InsufficientFunds` after a redemption took the unit |
| Failures.SplitPoolRefuses | programs/controller/src/lib.rs:381-421 | A concrete run in which the pool holds a vault's ten units in two accounts of five, and the exit is refused out of every account |
| Theorems.EarlyRunIsClean | programs/batch_settler/src/lib.rs:334-392 | Exits through the settler before the series' expiry, and direct exits of vaults without a short, keep every run clean, so solvency survives them |
| Theorems.EarlyExitIsClean | programs/batch_settler/src/lib.rs:338-369 | Before expiry the smaller of the two amounts an exit burns is the vault's whole short |
| SettlerPools.ExitBurnsShort | programs/batch_settler/src/lib.rs:341-346 | While a series has no price, the exit of any of its attributed vaults burns exactly the vault's short: the minimum does not bind |
| SettlerPools.RescueBooks | programs/controller/src/lib.rs:381-427 | An emergency exit keeps the oToken books if and only if it burns as much as the vault was short of |
| SettlerPools.ExitSlack | programs/controller/src/lib.rs:381-427 | An emergency exit costs its pool, to the unit, the worth of the vault's short less what the burn takes off the outstanding oTokens, and nothing else |
| Theorems.DirectExitSolventIff | programs/controller/src/lib.rs:381-427 | After a direct exit the pool covers everything if and only if what it had to spare before was worth the vault's whole short |
| Theorems.SettlerExitSolventIff | programs/batch_settler/src/lib.rs:334-392 | After a settler exit the pool covers everything if and only if what it had to spare, with what the burn took off the outstanding oTokens, was worth the vault's whole short |
| Theorems.SettlerExitIff | programs/batch_settler/src/lib.rs:334-392 | In every reachable state the beneficiary's exit succeeds if and only if the controller is fully paused, the vault is the settler's and unsettled, and the custody account and the pool account passed hold what is burned and what is released; the settler's accounts together always hold the burn |
| Failures.DirectExitStrandsHolders | programs/controller/src/lib.rs:381-427 | A concrete run: write ten calls, leave directly, and the holder has an empty pool behind the calls |
| Theorems.RunWindsDown | programs/controller/src/lib.rs:211-353 | Over clean runs, once every vault of a series is settled and its supply redeemed, what the pool kept less what it paid lies between minus (writers - 1) and redemptions - 1, and is zero for exact series |
| WindDown.WindDownIsEven | programs/controller/src/lib.rs:211-353 | The same in any state with sound books |
| WindDown.SettlementIff | programs/controller/src/lib.rs:211-282 | In every reachable state a settlement succeeds if and only if the vault is unsettled, its series priced, the controller not paused and the pool account passed holds what is returnable; it sends exactly that, and `InsufficientFunds` is the answer when the account does not hold it |
| WindDown.RedemptionIff | programs/controller/src/lib.rs:284-353 | The same for a redemption: it succeeds if and only if the oToken account passed holds the amount and the pool account passed what is due, whatever the amount |
| WindDown.SettlementSucceeds | programs/controller/src/lib.rs:211-282 | At a pool with something to spare, at whatever forecast, a settlement out of an account that holds the whole pool and that passes its other checks succeeds |
| WindDown.RedemptionSucceeds | programs/controller/src/lib.rs:284-353 | The same of a redemption of any amount the oToken account passed holds; that its payout exists is part of the result |
| Conditions.OpenIff | programs/controller/src/lib.rs:32-72 | In every reachable state opening a vault succeeds if and only if the owner has a counter below the top, the beneficiary is somebody and nothing is paused: the next id is always free |
| Conditions.DepositIff | programs/controller/src/lib.rs:74-136 | A deposit succeeds if and only if the vault is unsettled, nothing is paused, and the wallet account passed has the amount and the pool account passed is credited all of it |
| Conditions.MintIff | programs/controller/src/lib.rs:138-209 | In every reachable state a mint succeeds if and only if the vault is unsettled, nothing is paused, the series unexpired and of the vault's collateral and priceable, and the whole new short is worth at most the collateral |
| Conditions.WithdrawIff | programs/controller/src/lib.rs:381-427 | A direct exit succeeds if and only if everything is paused, the vault unsettled, the account paid its beneficiary's and the pool account passed holds the collateral |
| Conditions.SettleIff | programs/controller/src/lib.rs:211-282 | `WindDown.SettlementIff` for any signer and accounts: the controller's admin signs and the account paid is the beneficiary's |
| Conditions.RedeemInstruction | programs/controller/src/lib.rs:284-353 | `WindDown.RedemptionIff` for any accounts, and what the accounts hold afterwards |
| Conditions.SeriesPriceIff | programs/controller/src/lib.rs:461-479 | In every reachable state the admin can copy a series' price exactly when the oracle has one and the series none: the controller's own clock never stands in the way |
| Conditions.FinalizeIff | programs/oracle/src/lib.rs:105-154 | A price is finalised if and only if admin or operator submits it, for a new underlying and expiry, at or after expiry, from an active feed whose update is in age, confidence and distance within the limits, all in numbers |
| SettlerConditions.OrderIff | programs/batch_settler/src/lib.rs:136-305 | In every reachable state an order executes if and only if an earlier instruction carries its seven terms under the whitelisted maker's key and nonce, it is in time and of at least 1,000,000, its quote not cancelled and with room, its accounts the right parties', its collateral covers the new short and the maker's account has the premium: attribution and custody never stand in the way |
| SettlerConditions.RedeemForIff | programs/batch_settler/src/lib.rs:463-556 | In every reachable state the operator's cash redemption succeeds if and only if the settler is not paused, custody and the accounts passed have the amount and the pool account what is due: what arrives can always be passed on |
| SettlerConditions.SelfRedeemIff | programs/batch_settler/src/lib.rs:560-659 | The same for the maker's own redemption: from exactly the configured delay after expiry on, paused or not, and time never refuses it afterwards |
| SettlerConditions.ExitIff | programs/batch_settler/src/lib.rs:334-392 | `Theorems.SettlerExitIff` for any signer and accounts: the beneficiary signs and names the maker and series the vault is attributed to |
| SettlerConditions.DeliveryIff | programs/batch_settler/src/lib.rs:671-887 | In every reachable state a delivery succeeds if and only if its terms hold in the fields of the series, both ledgers and the accounts passed have the amount and what is due, something is credited, the route of the configured swap program runs, and it leaves the accounts as the kind of option needs: the transfers out of the settler never fail |
| SettlerConditions.RightAssetNeverRefused | programs/batch_settler/src/lib.rs:684-714 | With the underlying of a put or the strike asset of a call in the accounts passed, the asset is never what a delivery is refused for |
| WindDown.ExitFunded | programs/controller/src/lib.rs:381-421 | While no series on its mint has a price, a vault's whole collateral is in the pool's accounts together, whatever exits were taken before |
| WindDown.ExactSeriesLossless | programs/controller/src/lib.rs:566-581 | A mint whose series all have no denominator loses nothing to rounding |
| WindDown.LosslessSlack | programs/controller/src/lib.rs:211-353 | Sound books whose series on a mint lose nothing to rounding leave its pool with nothing missing at any forecast, so settlements and redemptions there never lack funds |
| Runoff.SlackPersists | programs/controller/src/lib.rs:211-427 | Over any run that mints nothing and whose exits leave no oTokens behind, no pool has less to spare afterwards than before, at any forecast the run bears out: settlements and redemptions in whatever order never eat into it |
| Runoff.NobodyRefused | programs/controller/src/lib.rs:211-353 | So after any such run from a reachable state with something to spare every settlement and every redemption whose other checks pass succeeds, out of an account that holds the pool, for any credit the mint lets through |
| Theorems.PoolConserves | programs/controller/src/lib.rs:74-427 | Over every run, deposits + gifts = pool balance + releases + payouts, whatever a mint withholds; no vault releases more than once or more than was deposited |
| Theorems.VaultsStayCovered | programs/controller/src/lib.rs:166-245 | In every reachable state, at any price, the payout of a vault's short exists and is within its collateral; out of the money everything returns, in the money the collateral above the requirement |
| Theorems.IdsAreDense | programs/controller/src/lib.rs:48-65 | An owner's vault ids are exactly those below its counter |
| Theorems.OnePrice | programs/controller/src/lib.rs:461-479 | Series with the same underlying and expiry that have a price have the same one, and keep it over any continuation |
| Theorems.NoMintAfterSettlement | programs/controller/src/lib.rs:147-151 | Once any of a series was settled or redeemed, no run mints more of it |
| Theorems.NeverBothPay | programs/batch_settler/src/lib.rs:2151-2173 | Of a put and a call on one underlying at one strike and expiry, each with its own copy of the price, in every reachable state one pays nothing on any amount, and not both pass the delivery check |
| Theorems.DeliverableIsPaid | programs/controller/src/lib.rs:587-603 | In every reachable state the controller pays the whole requirement of any amount where the settler's delivery check passes, and nothing on any amount where it fails |
| Theorems.FillsWithinLimits | programs/batch_settler/src/lib.rs:1914-1923 | A quote's record is the sum of what was executed under it, within the largest limit it was executed with |
| Theorems.FrozenForever | programs/batch_settler/src/lib.rs:108-131 | A cancelled quote, or one signed under a nonce the maker has left behind, is never filled again |
| Theorems.DriftIsOneSided | programs/batch_settler/src/lib.rs:259-291 | A maker's custody entry is at most its undelivered oTokens, equal until it redeems for cash and never apart by more than it redeemed; each vault's remainder is at most its short |
| Drift.NoCashNoDrift | programs/batch_settler/src/lib.rs:463-659 | Over every run in which neither cash route is used for a maker and a series, its custody entry equals its undelivered oTokens |
| Drift.StepCashes | programs/batch_settler/src/lib.rs:463-659 | Only the two cash routes raise what a maker has redeemed |
| Theorems.EscapeAfterDelay | programs/batch_settler/src/lib.rs:560-575 | In every reachable state a maker's own redemption succeeds no earlier than the configured delay after expiry, which is at least three days |
| Theorems.CustodyIsBacked | programs/batch_settler/src/lib.rs:255-280 | The settler's oTokens are the makers' custody plus gifts, so whatever the ledger lets a maker spend is there |
| Theorems.FillsAreWritten | programs/batch_settler/src/lib.rs:240-291 | For each maker fills add up to the shorts of its vaults; exactly the settler's vaults are attributed, each with one deposit and one mint |
| Theorems.FeeStaysCapped | programs/batch_settler/src/lib.rs:400-404 | In every reachable configuration fee and net make the premium and the fee is at most a fifth |
| Theorems.DeviationAlwaysChecked | programs/oracle/src/lib.rs:175-186 | The deviation threshold is positive in every reachable state |
| Invariants.StepKeeps | programs/controller/src/lib.rs:24-479 | Every instruction of the machine, which has all state-changing ones but initialisation and rent withdrawal, and the world outside keep the books of both programs, and the oToken books too unless it is an exit that leaves oTokens behind |
| Invariants.RunKeeps | programs/controller/src/lib.rs:24-479 | The books hold after every run from the initial state |
| Invariants.CleanRunKeeps | programs/controller/src/lib.rs:24-479 | After clean runs the oToken books hold too |
| Progress.StepProgress | programs/controller/src/lib.rs:24-479 | No instruction takes back a price, a series' terms, a settled vault, a nonce or a frozen quote, or mints an expired series |
| Progress.RunProgress | programs/controller/src/lib.rs:24-479 | Nor does any run from a state with sound books |
| Frames.StepFrame | programs/controller/src/lib.rs:24-479 | No instruction of any program touches configuration, counters, series, vaults, feeds, prices, makers, quotes or custody that it is not about |
| Authority.SettingsFollow | programs/batch_settler/src/lib.rs:394-439 | After any instruction of any program the settler's configuration is as before, or as its owner asked within the limits: fee, delay, operator, swap program, treasury, pause |
| Authority.PausesFollow | programs/controller/src/lib.rs:355-379 | After any instruction the pauses are as before or as admin, or for the partial pause the pauser, asked |
| Authority.OracleFollows | programs/oracle/src/lib.rs:38-223 | After any instruction configuration, feeds and prices of the oracle are as before, or as the admin asked, or with one new price where `Conditions.FinalizeIff` allows it |
| Authority.SeriesFollow | programs/controller/src/lib.rs:429-479 | After any instruction the series are as before, or with one new one as admin or factory operator recorded it, or with the oracle's price copied by the admin |
| Authority.MakersFollow | programs/batch_settler/src/lib.rs:89-118 | After any instruction the makers are as before, or with one whitelisted or not by the owner, or with one nonce raised by one by its maker |
| Authority.FillsFollow | programs/batch_settler/src/lib.rs:120-305 | After any instruction the quote records are as before, or with one cancelled by its maker under the current nonce, or with one filled by an order that `SettlerConditions.OrderIff` allows |
| Authority.VaultsFollow | programs/controller/src/lib.rs:32-427 | After any instruction the vaults are as before but for one: opened by its owner for the beneficiary named, funded or shorted by its owner, written by an order, or settled by admin or exit, each exactly when its condition holds |
| Authority.CustodyFollows | programs/batch_settler/src/lib.rs:255-755 | After any instruction the custody ledger is as before but for one entry: raised by an order, lowered by a cash redemption, a delivery or an exit, each exactly when its condition holds |
| Authority.PricesAlwaysDue | programs/oracle/src/lib.rs:105-154 | In every reachable state every recorded price is positive and of an expiry that has come |
| Authority.CancellationHolds | programs/batch_settler/src/lib.rs:120-131 | A cancellation marks the maker's quote of that id under its current nonce and no other record, and over any continuation nothing is ever executed under that quote again |
| Authority.NonceRetires | programs/batch_settler/src/lib.rs:108-118 | Raising a nonce raises it by one, and over any continuation nothing is ever executed again under a quote of the old nonce or an earlier one |
| Authority.SettlerPauseHalts | programs/batch_settler/src/lib.rs:412-416 | Over any run from a paused settler in which the owner does not lift the pause no quote is filled, and a maker's custody changes only by its own redemption or by exits of vaults attributed to it |
| Pauses.FullPauseHalts | programs/controller/src/lib.rs:371-379 | Over any run from a fully paused state in which the admin does not lift the pause: no vault, deposit, short, mint or fill is added, nothing is redeemed, and collateral leaves pools by emergency exits only |
| Pauses.PartialPauseStopsWriting | programs/controller/src/lib.rs:361-369 | Over any run from a partially paused state in which nobody lifts the pause: no vault, deposit, short, mint or fill is added |
| Pauses.FullPauseRefuses | programs/controller/src/lib.rs:211-291 | Every instruction of either program that writes or pays fails under a full pause |
| Pauses.PartialPauseRefuses | programs/controller/src/lib.rs:138-147 | Every instruction of either program that writes fails under a partial pause |
| TokenLaw.RunLawful | programs/batch_settler/src/lib.rs:2251-2283 | In every reachable state, through every instruction and every swap route: the totals of each owner and mint are the sums of their accounts, the accounts of each mint hold at most its supply, supplies fit 64 bits, and only series that can be priced have any |
| TokenLaw.StepLawful | programs/controller/src/lib.rs:24-479 | No instruction of the programs or the world outside breaks that law |
| Runtime.Execute | programs/batch_settler/src/lib.rs:136-305 | One transaction on the accounts: the new accounts are those of the step function, a failure changes nothing, and sound books stay sound |
| Payoff.RequiredIsWorth | programs/controller/src/lib.rs:545-582 | The 64- and 128-bit code is the exact product rounded down, or fails exactly when that does not fit 64 bits or a put has over 16 decimals |
| Payoff.WorthInUnits | programs/controller/src/lib.rs:545-582 | The worth in numbers: amount times strike scaled from sixteen decimals to those of the collateral for a put, the amount scaled from eight for a call, rounded down |
| PoolBooks.RequirementIsExact | programs/controller/src/lib.rs:545-582 | The requirement of a series exists exactly when it can be priced and its worth fits 64 bits, and is that worth |
| PoolBooks.DepositMoves | programs/controller/src/lib.rs:74-136 | Everything a deposit checks and changes, and the balances it moves |
| Payoff.WorthAdd | programs/controller/src/lib.rs:545-582 | Worth is superadditive, subadditive up to one unit, additive without a denominator |
| Payoff.WorthMono | programs/controller/src/lib.rs:545-582 | Worth is monotone in the amount |
| FloorSums.FloorShortfall | programs/controller/src/lib.rs:545-582 | Rounding term by term falls short of rounding the sum by the whole multiples in the remainders, less than the number of non-zero terms |
| Payoff.ContraIsDualCollateral | programs/batch_settler/src/lib.rs:2183-2219 | What a put delivers is what the call at its strike locks, and conversely, over the supported decimals, failures included |
| Payoff.ContraIsOwed | programs/batch_settler/src/lib.rs:2183-2219 | The contra amount in numbers: the amount scaled from eight decimals for a put, amount times strike scaled from sixteen for a call, exactly within the supported decimals, positive and within 64 bits |
| Payoff.SplitIsExact | programs/batch_settler/src/lib.rs:1925-1939 | Premium is the greatest whole number with 100,000,000 premiums within amount times price, the fee the greatest with 10,000 fees within premium times rate, fee and net make the premium, the fee is at most a fifth; failure exactly on 64-bit overflow |
| Payoff.SplittingFills | programs/batch_settler/src/lib.rs:1925-1939 | Splitting an order into k fills costs at most k - 1 premium units and never earns the treasury more |
| PoolBooks.PayoutAlwaysCovered | programs/controller/src/lib.rs:587-603 | In a sound vault the payout exists at every price and never exceeds the collateral |
| PoolBooks.InitializeCounterKeeps | programs/controller/src/lib.rs:24-30 | A new counter keeps the pool books |
| PoolBooks.OpenVaultKeeps | programs/controller/src/lib.rs:32-72 | A new vault takes the next id and keeps the pool books |
| PoolBooks.DepositKeeps | programs/controller/src/lib.rs:74-136 | A deposit raises the vault's collateral by what the pool was credited, so the double entry holds |
| PoolBooks.MintKeeps | programs/controller/src/lib.rs:138-209 | A mint leaves the vault covered for its whole short |
| PoolBooks.SettleKeeps | programs/controller/src/lib.rs:211-282 | A settlement releases the collateral less what is due, once |
| PoolBooks.RedeemKeeps | programs/controller/src/lib.rs:284-353 | A redemption is matched by the payouts of its series |
| PoolBooks.EmergencyKeeps | programs/controller/src/lib.rs:381-427 | An emergency withdrawal releases the collateral, once |
| PoolBooks.CreateSeriesKeeps | programs/controller/src/lib.rs:429-459 | A new series has no vault, payment or price yet |
| PoolBooks.SetExpiryPriceKeeps | programs/controller/src/lib.rs:461-479 | A price is set once, after expiry, from the oracle's record |
| PoolBooks.MintMoves | programs/controller/src/lib.rs:138-209 | Everything a mint checks and changes, and the balances it moves |
| PoolBooks.SettleMoves | programs/controller/src/lib.rs:211-282 | Everything a settlement checks and changes, and the balances it moves |
| PoolBooks.RedeemMoves | programs/controller/src/lib.rs:284-353 | Everything a redemption checks and changes, and the balances it moves |
| PoolBooks.EmergencyMoves | programs/controller/src/lib.rs:381-427 | Everything an emergency withdrawal checks and changes, and the balances it moves |
| Solvency.MintBooks | programs/controller/src/lib.rs:138-209 | Minting adds to the supply exactly what the vault writes |
| Solvency.RedeemBooks | programs/controller/src/lib.rs:284-353 | Redemptions take from the supply what they pay for, fairly up to one unit each |
| Solvency.SettleBooks | programs/controller/src/lib.rs:211-282 | A settled vault stays a writer of its oTokens |
| Solvency.RedemptionFair | programs/controller/src/lib.rs:300-306 | One more redemption keeps total payments within the worth of all redeemed, less one unit for each further redemption |
| OrderSteps.OrderIsAuthorised | programs/batch_settler/src/lib.rs:148-243 | For an executed order an earlier instruction of the signature program carries the whitelisted maker's whole 32-byte key and the order's terms, and they are what the precompile verified if that instruction's index fields name itself; nonce current, deadline not past, room left |
| OrderSteps.ExecuteOrderEffect | programs/batch_settler/src/lib.rs:136-305 | Everything a successful order changes: one fresh vault with the order's collateral and short, its attribution, the custody entry, the fill, four events, and every balance: collateral from the user to the pool, oTokens into custody, exactly net + fee = premium from the maker, net to the user, fee to the treasury |
| OrderSteps.PremiumMoves | programs/batch_settler/src/lib.rs:2110-2149 | The maker is debited exactly fee and net, the user gets net, the treasury the fee |
| OrderSteps.OrderKeeps | programs/batch_settler/src/lib.rs:136-305 | An order keeps all ledgers in agreement |
| SettlerPools.OrderPools | programs/batch_settler/src/lib.rs:136-305 | An order keeps the pool books and the oToken books |
| CustodySteps.CashRoutesPayExactly | programs/batch_settler/src/lib.rs:463-659 | Both cash routes pay the maker exactly what the redemption brought in and leave every other account of the settler, donations included, as it was |
| CustodySteps.CashKeeps | programs/batch_settler/src/lib.rs:463-659 | Cash redemption keeps the ledgers: custody and tokens fall together, drift grows by the amount |
| DeliverySteps.DeliveryLeavesNoResidue | programs/batch_settler/src/lib.rs:671-873 | For every swap outcome that passes the checks the two settler accounts passed end where they started; a put gives an account of the user's in the underlying at least the contra amount and one of the maker's in the collateral the payout less collateral used, a call the user's account in the strike asset exactly the contra amount and the maker's in the strike asset the rest; one account of both gets the sum |
| DeliverySteps.TravelMoves | programs/batch_settler/src/lib.rs:2251-2283 | A swap route of any length touches only accounts of wallets and the two settler accounts it is given, and the settler's totals move by what those two do |
| DeliverySteps.PhysicalRedeemEffect | programs/batch_settler/src/lib.rs:671-873 | What a delivery takes from custody, attribution, supply and pool, and the assets of the accounts it pays |
| DeliverySteps.DeliveryKeeps | programs/batch_settler/src/lib.rs:671-873 | Delivery lowers custody, attribution and tokens together |
| DeliverySteps.ExitEffect | programs/batch_settler/src/lib.rs:334-392 | Everything a settler exit changes in the ledgers |
| DeliverySteps.ExitKeeps | programs/batch_settler/src/lib.rs:334-392 | A settler exit keeps the ledgers, clearing the vault's remainder |
| QuoteSteps.CancelKeeps | programs/batch_settler/src/lib.rs:120-131 | Cancelling keeps every filled amount and all ledgers; what it marks is in `Authority.CancellationHolds` |
| QuoteSteps.NonceKeeps | programs/batch_settler/src/lib.rs:108-118 | Raising a nonce keeps every filled amount |
| QuoteSteps.WhitelistKeeps | programs/batch_settler/src/lib.rs:89-106 | Whitelisting keeps the maker's nonce and all ledgers |
| Quotes.BuildQuoteMessage | programs/batch_settler/src/lib.rs:1941-1959 | The buffer is the 104-byte message of the seven fields |
| Quotes.Message | programs/batch_settler/src/lib.rs:1941-1959 | A message is always 104 bytes |
| Quotes.FieldsOfMessage | programs/batch_settler/src/lib.rs:1941-1959 | At which byte each of the seven fields stands, little-endian |
| Quotes.MessageInjective | programs/batch_settler/src/lib.rs:1941-1959 | Different quotes have different messages |
| Quotes.ScanForSignature | programs/batch_settler/src/lib.rs:1961-1987 | The scan succeeds exactly when an earlier instruction accepts the message under the key, whatever malformed ones precede it, with the right error otherwise |
| Quotes.AcceptsIff | programs/batch_settler/src/lib.rs:1989-2017 | Exactly which signature instructions are accepted, byte by byte |
| Quotes.OneQuotePerSignature | programs/batch_settler/src/lib.rs:1989-2017 | One signature instruction carries one key and one quote only |
| Quotes.AcceptanceIsVerificationIff | programs/batch_settler/src/lib.rs:1989-2017 | Of an accepted instruction: whatever else the transaction holds, what the precompile verified is the accepted key and message, if and only if the two index fields the check does not read name the instruction itself |
| Quotes.ElsewhereVerified | programs/batch_settler/src/lib.rs:1989-2017 | For every accepted instruction that names another one there is a transaction in which it is accepted and the precompile has verified other bytes |
| Quotes.LayoutIsAccepted | programs/batch_settler/src/lib.rs:1989-2017 | The instruction laid out with key, signature and message in order is accepted for them, and its index fields name itself wherever it stands |
| Oracle.ParsePythPriceUpdate | programs/oracle/src/lib.rs:560-638 | Advancing an offset field by field reads the record at its documented place, or fails with the right error |
| Oracle.ParseInvertsEncode | programs/oracle/src/lib.rs:539-638 | The parser returns exactly the encoded price, confidence, exponent and time, for any authority, either verification level and any trailing bytes; only a price that is not positive is refused |
| Oracle.ParseIff | programs/oracle/src/lib.rs:539-638 | The parser accepts exactly the accounts that the receiver owns and that hold the eight given bytes, an authority, a tag, the feed and a positive price in this layout, and returns that price |
| Oracle.DeviationBound | programs/oracle/src/lib.rs:701-717 | Truncating division accepts exactly the deviations strictly below one basis point above the threshold, within 64 bits |
| Oracle.StalenessBound | programs/oracle/src/lib.rs:640-654 | An update passes exactly when it is not from the future and no older than the limit, or the limit is zero |
| Oracle.ConfidenceBound | programs/oracle/src/lib.rs:656-673 | The same for the confidence interval |
| Oracle.NormalizeIsFloor | programs/oracle/src/lib.rs:678-699 | Normalisation is the exact floor of the scaled price, for every exponent defined exactly when exponent and result are in range and the result is at least one |
| Oracle.NormalizeMono | programs/oracle/src/lib.rs:678-699 | Normalisation is monotone in the price |
| Oracle.AcceptedPriceBound | programs/oracle/src/lib.rs:105-154 | The raw price of the update a finalised price was held against is strictly within threshold + 1 basis points of it, up to the unit flooring loses; the update was recent and tight when those checks are on; who, when and where it is written is in `Authority.OracleFollows` |
| ControllerProgram.InitializeCounter | programs/controller/src/lib.rs:24-30 | Creates the counter at zero or refuses an existing one; a success keeps the pool books |
| ControllerProgram.OpenVault | programs/controller/src/lib.rs:32-72 | Writes an empty vault under the next id and raises the counter, or fails with the first failing check; a success keeps the pool books |
| ControllerProgram.DepositCollateral | programs/controller/src/lib.rs:74-136 | With the pool measured before and after the transfer, records the deposit only when the pool was credited in full; a success keeps the pool books |
| ControllerProgram.MintOtoken | programs/controller/src/lib.rs:138-209 | Before expiry, mints against the requirement of the whole new short; a success keeps the pool books |
| ControllerProgram.SettleVault | programs/controller/src/lib.rs:211-282 | Sends the beneficiary the collateral less the payout and marks the vault; a success keeps the pool books |
| ControllerProgram.Redeem | programs/controller/src/lib.rs:284-353 | Burns and pays out of the pool of the series; a success keeps the pool books |
| ControllerProgram.EmergencyWithdrawVault | programs/controller/src/lib.rs:381-427 | Marks the vault first and returns all collateral while fully paused; a success keeps the pool books |
| ControllerProgram.CreateOTokenInfo | programs/controller/src/lib.rs:429-459 | Records the series without a price; a success keeps the pool books |
| ControllerProgram.SetExpiryPrice | programs/controller/src/lib.rs:461-479 | Copies the oracle's price once, after expiry; a success keeps the pool books |
| SettlerProgram.WhitelistMaker | programs/batch_settler/src/lib.rs:89-106 | The owner switches the flag of one maker; the books of both programs are kept |
| SettlerProgram.IncrementMakerNonce | programs/batch_settler/src/lib.rs:108-118 | Raises the nonce by one or fails at the top, and keeps the books of both programs |
| SettlerProgram.CancelQuote | programs/batch_settler/src/lib.rs:120-131 | Marks the quote under the current nonce as cancelled and changes no other record, and keeps the books of both programs |
| SettlerProgram.ExecuteOrder | programs/batch_settler/src/lib.rs:136-305 | The whole order in place; a success makes exactly the changes of `OrderSteps.ExecuteOrderEffect`: the maker's total falls by the premium, of which 100,000,000 are within amount times price and no more, the user's rises by net, the treasury's by the fee; the books of both programs are kept |
| SettlerProgram.SettleVault | programs/batch_settler/src/lib.rs:309-329 | Only the operator reaches the controller's settlement; a success keeps the books of both programs |
| SettlerProgram.EmergencyWithdraw | programs/batch_settler/src/lib.rs:334-392 | Burns the smaller of remainder and custody, clears the vault's remainder, and exits: vault, attribution, custody entry and custody tokens change as `DeliverySteps.ExitEffect` says, and the books of both programs are kept |
| SettlerProgram.RedeemForMM | programs/batch_settler/src/lib.rs:463-556 | The operator's route, not while paused: from sound books custody falls by the amount and the maker receives exactly what the redemption brought in |
| SettlerProgram.MMSelfRedeem | programs/batch_settler/src/lib.rs:560-659 | The maker's route, pause or not: a success is no earlier than the configured delay after expiry, and from sound books makes the same exact payment |
| SettlerProgram.PhysicalRedeem | programs/batch_settler/src/lib.rs:671-887 | The whole delivery in place: from sound books custody, remainder, supply and settler tokens fall by the amount and the pool by its payout, paid into accounts of the right assets and owners |
| SettlerProgram.SetProtocolFee | programs/batch_settler/src/lib.rs:400-404 | The owner, and nobody else, sets the fee and nothing else, to at most 2000 ten-thousandths; the books are kept |
| SettlerProgram.SetEscapeDelay | programs/batch_settler/src/lib.rs:418-429 | The owner, and nobody else, sets the delay and nothing else, to at least 259,200 seconds; the books are kept |
| OracleProgram.SetExpiryPrice | programs/oracle/src/lib.rs:105-154 | Writes the submitted price of an underlying and expiry once, at or after that expiry, for admin or operator; a success means the update parsed for that feed, was recent and tight when those checks are on, and its raw price is within threshold + 1 basis points, up to the unit flooring loses |
| OracleProgram.SetThreshold | programs/oracle/src/lib.rs:175-186 | The admin changes the threshold and nothing else, and never to zero |
| Tokens.TransferMoves | programs/controller/src/lib.rs:98-110 | A transfer takes the amount from the total of one owner and mint and adds at most that to another's, touching nothing else |
| Tokens.TransferFunds | programs/controller/src/lib.rs:98-110 | The same account by account |
| Tokens.MintToMoves | programs/controller/src/lib.rs:187-198 | Minting raises one total and the supply |
| Tokens.BurnMoves | programs/controller/src/lib.rs:307-318 | Burning lowers one total and the supply |
| Tokens.BurnFunds | programs/controller/src/lib.rs:307-318 | The same account by account |

## Left out

- Token accounts: an account is its owner, its mint and a number; opening, closing and freezing accounts, and which of
  them is the associated one, are out, as the programs check owner and mint only.
- Delegation: any wallet may have approved any program or person; how approvals are given is not modelled. Derived
  addresses never delegate.
- Derived addresses are injective keys; their hashing, bumps, rent, lamports, account sizes and serialisation are out.
- Signatures: the precompile's cryptography is out; the byte layout, the key and message it takes and the scan are in. The
  zero address signs nothing.
- The swap program is arbitrary: its route is any sequence of transfers among wallets and the two settler accounts it is
  given, with any of them credited in part. A route that itself issues or burns tokens is out, and so are the program's
  internals and the mock.
- SettlerProgram.InvokeSwap: the code lets a route touch any account owned by the settler that is passed to it; the model
  has only the two the code measures.
- Mints: a mint may withhold part of any credit that the code measures (deposits, settlements, redemptions, exits).
  Premiums and payments out of the settler are credited in full.
- oToken mints: registration assumes a fresh mint that is none of its own assets, as the factory creates it; the
  factory, the whitelist and the margin pool are not part of this model, nor are their checks at registration.
- Initialisation of the three configurations (runs start from a configuration within range), rent withdrawal, and the
  price queries that change nothing.
- Which error a refused call returns is part of the specifications the handlers are proved against, and of few theorems;
  the conditions say when a call is refused.
- The handlers of the setters of pauses, treasury, operators, swap program, ownership, feeds and oracle limits have no row
  of their own: what they do is in `Authority.dfy`, what the two pauses bring about in `Pauses.dfy`.
