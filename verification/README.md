# PhishLens: verified core

PhishLens scores suspicious mail. This project models the parts of it that carry state, arithmetic
or untrusted bytes, and proves what they guarantee on every input and in every run:

- **RAR5 listing** (`VInt`, `Rar5`, `Rar5Printer`, `Rar5Safety`): the byte-level header walker that
  names the files in a .rar attachment. It inverts the header printer, it reports only bytes of its
  input, and cutting the input short can only take findings away.
- **Lookalike distance** (`Osa`): the in-place table computes the least cost of an edit script, and
  how far a detour over another string can undercut it.
- **Card numbers** (`Luhn`): the redactor's check detects every single wrong digit, and exactly
  which neighbouring swaps it misses.
- **Weight tuning** (`Vectors`, `Tune`, `Descent`): every epoch of gradient descent improves the fit
  to the analysts' labels, unless there is nothing left to change, while labels carry fewer than a
  thousand signals; and a thousand is where that stops being true.
- **Score engine** (`Score`, `ScoreProperties`): verdicts characterized by score and flags, order of
  signals irrelevant, monotonicity and how far a language model can clear a message, each with its
  exact condition.
- **Model budget** (`LlmBudget`, `LlmService`): call rate and dollar accounting over whole runs, and
  provider chains that close every reservation exactly once.
- **Provider breaker and reputation cache** (`Breaker`, `ReputationCache`, `Reputation`,
  `ReputationRuns`): how often a failing provider is called with so many calls in flight, which one
  map the two cache levels are, and answers that in every run go back to what providers said.
- **MIME walk** (`Mime`): success characterized by what the tree of parts holds, bodies and
  attachments in closed form.

Conventions. Floating-point numbers are exact reals. Instants and durations are whole nanoseconds;
every operation that takes a lock reads the clock once, and readings never go back (`Common.Clock`
lets any time pass between two of them). File contents are sequences of bytes, text is a sequence of
code points. Providers, name servers and the database are arguments or fields that may do anything
the code allows for. Sums of 64-bit integers are unbounded where the code has already compared them
with the length of the input; the one place where a machine word could lose bits, the shift in the
variable-integer reader, is modelled with its wrap-around and bitwise "or".

Each imperative method is proved equal to a specification function of its inputs or of the old
state, and the main results are lemmas about those functions. Where a promise fails, the code is
kept and the exact condition is proved:

- Without a language model's opinion, adding a signal against the message never lowers score or rank
  if and only if the suspicious threshold is not above the phishing one, or the phishing one is not
  positive (`MonotoneIff`). With an opinion the score still never falls, but the rank does exactly when
  the message was phishing by its score, the model calls it clean, and the signal is the strong
  technical one that makes this a conflict for review (`AddingLowersRankIff`, `StrongLowersRank`).
- The package comment says the language model never decides the verdict, and a test says it cannot
  turn a strong signal into clean. The code keeps that promise if the score without the model is above
  the suspicious threshold by at least what the model's signal can take off (`StrongerThanOpinion`):
  fifteen points at its default weight, twelve at its ordinary confidence (`OpinionCannotClear`). It
  breaks it exactly for a message on no list whose sum, the model's signal included, rounds to less
  than the threshold (`OpinionClearsIff`), and two shipped checks make such a message at the default
  thresholds, and at any others in order above zero for some configured weight (`StrongCleared`).
- The hourly cap holds in each window of the budget's own, but an arbitrary hour can hold twice as
  many calls, and no more (`SlidingHour`, `SlidingHourReached`).
- The day's recorded spending is exact while grants are closed on the day they were made; closing
  an older grant keeps it exact only as `StaleClose` says.
- If the database missed the latest write under a key, an older answer comes back once memory is lost,
  exactly as long as the latest that did reach it has not expired and differs (`StaleAfterLossIff`);
  and without any loss once the missed answer has expired in memory (`AfterExpiry`,
  `MissedSetComesBack`). If the database did not miss that write, none does, whatever else failed
  (`RefinesOneMap`).
- Tuning improves the fit of the weights it computes. Those it returns are clamped and rounded, which
  can move the score of an example by half the sum of its confidences (`RoundingMoves`).
- The distance is not a metric: a detour over another string can be cheaper (`DetourCheaperIff`), at
  most by half, and never if neither leg has two characters to swap (`DetourBounds`).
- Under a daily cap, the calls granted in any 24 hours cost at most twice the cap if none costs more
  than was reserved for it (`SlidingDayWithin`); otherwise as much more as they cost more, and no less
  will do (`SlidingDay`, `SlidingDayReached`).
- A header longer than the format's limit ends a listing (`OversizedEndsListing`), and so does one cut
  short, after adding what can be read of it (`CutEndsListing`).

## Model

| member | source | states |
|---|---|---|
| `VInt.ReadVInt` | internal/parse/attachments.go:330-342 | the shifting, or-ing loop reads the exact little-endian sum of 7-bit groups up to the first byte without continuation bit, and fails on unended, over-long or over-wide input |
| `VInt.ReadExact` | internal/parse/attachments.go:330-342 | whatever the input, a successful reading takes 1 to 10 bytes, is the exact group sum below 2^64, and depends on the consumed bytes only |
| `VInt.ReadIff` | internal/parse/attachments.go:330-342 | a reading succeeds exactly if a byte without continuation bit ends one of at most 64 bits |
| `VInt.ReadTruncated` | internal/parse/attachments.go:330-342 | on shortened input a reading fails or stays the same |
| `VInt.OrIsSum` | internal/parse/attachments.go:336 | or-ing a group above the bits read so far is addition |
| `VInt.ShiftFits` | internal/parse/attachments.go:333-336 | the shift of a group the reader accepts loses no bit of a 64-bit word |
| `VInt.PrintVInt` | internal/parse/attachments_test.go:102-115 | the writer's loop gives the canonical encoding |
| `VInt.RoundTrip` | internal/parse/attachments_test.go:102-115 | reading inverts writing for every 64-bit value before any suffix, consuming exactly the 1 to 10 written bytes |
| `Rar5.ScanRecords` | internal/parse/attachments.go:299-313 | the extra-record loop: whether all records are well formed, and whether an encryption record came before the first that is not |
| `Rar5.ReadGenericFields` | internal/parse/attachments.go:218-243 | header type, flags, extra and data sizes, and where they end, or failure |
| `Rar5.ReadHeadFields` | internal/parse/attachments.go:248-272 | file flags and the end of the optional time and checksum, or failure |
| `Rar5.ReadNameFields` | internal/parse/attachments.go:273-292 | the name of a file that is no directory and has one, bounds checked against the header |
| `Rar5.ProcessHeader` | internal/parse/attachments.go:218-326 | what one header adds, and whether the walk stops, skips a data area or goes on |
| `Rar5.FindBody` | internal/parse/attachments.go:206-217 | where the body of a header lies, if its size is readable, allowed and inside the input |
| `Rar5.ListRar5` | internal/parse/attachments.go:200-328 | the offset walk stays in bounds, terminates, and gives the listing specified header by header |
| `Rar5Printer.TestHeader` | internal/parse/attachments_test.go:87-100 | the repository's header writer prints the header it means, as the general printer does, unless it announces both extra and data area |
| `Rar5Printer.ListRoundTrip` | internal/parse/attachments.go:200-328 | listing printed headers gives exactly the first maxNames shown names up to the first stopping header, and marks encryption exactly when a header looked at says so |
| `Rar5Printer.ProcessRoundTrip` | internal/parse/attachments.go:218-326 | each printed header gives its shown name, its encryption mark, whether it stops, and its data length |
| `Rar5Printer.RecordsRoundTrip` | internal/parse/attachments.go:294-312 | printed records are read up to a broken one, and encryption is marked exactly if one before it has type 1 |
| `Rar5Printer.HeadRoundTrip` | internal/parse/attachments.go:247-272 | file flags written as a sum of 1, 2 and 4 for directory, time and checksum are read back, and the optional fields passed over exactly when they are there |
| `Rar5Printer.OversizedEndsListing` | internal/parse/attachments.go:215-229 | a header body over the size limit ends the listing of the headers before it, whatever it holds and whatever follows |
| `Rar5Printer.CutProcess` | internal/parse/attachments.go:226-312 | what a header cut short anywhere in its fields or extra area still adds before it ends the listing |
| `Rar5Printer.CutEndsListing` | internal/parse/attachments.go:207-328 | the listing of printed headers before a cut one, whatever follows |
| `Rar5Safety.ListInvents` | internal/parse/attachments.go:200-328 | on any input at most maxNames names, each a run of bytes of the input |
| `Rar5Safety.ListTruncated` | internal/parse/attachments.go:200-328 | on any truncation the names are a prefix of the full ones, and encryption is reported only if the whole has it |
| `Osa.DamerauLevenshtein` | internal/similarity/similarity.go:13-43 | the in-place table ends with the distance of the two strings |
| `Osa.Optimal` | internal/similarity/similarity.go:11-12 | the distance is attained by some edit script and by none cheaper, over all scripts of keep, substitute, insert, delete and adjacent swap |
| `Osa.Symmetric` | internal/similarity/similarity.go:13-43 | the distance is symmetric |
| `Osa.ZeroIffEqual` | internal/similarity/similarity.go:13-43 | it is zero exactly for equal strings |
| `Osa.Bounds` | internal/similarity/similarity.go:13-43 | it lies between the difference of the lengths and the longer length |
| `Osa.Subadditive` | internal/similarity/similarity.go:13-43 | joining strings costs at most the sum of the parts |
| `Osa.Compose` | internal/similarity/similarity.go:11-12 | edit scripts without swaps follow one another at no more than the cost of both |
| `Osa.DetourBounds` | internal/similarity/similarity.go:11-12 | for all strings the distance is at most that of a detour, each leg counted twice if two characters stand in opposite orders in its strings; so the triangle inequality holds where no leg has such a pair |
| `Osa.DetourCheaperIff` | internal/similarity/similarity.go:11-12 | swapping two characters and putting one between them undercuts the distance exactly when the three are different |
| `Luhn.LuhnOK` | internal/llm/redact.go:64-89 | the loop accepts exactly strings whose 13 to 19 digits have a checksum divisible by ten |
| `Luhn.WeightedIsChecksum` | internal/llm/redact.go:75-88 | the alternating sum is the pairwise checksum of ISO/IEC 7812-1, Annex B |
| `Luhn.OneDigitChanged` | internal/llm/redact.go:64-89 | changing any one digit of an accepted string makes it rejected, whatever separates the digits |
| `Luhn.NeighboursSwapped` | internal/llm/redact.go:64-89 | swapping neighbouring digits goes unnoticed exactly if they are equal or 0 and 9 |
| `Luhn.OneCheckDigit` | internal/llm/redact.go:65-89 | twelve to eighteen digits are completed by exactly one check digit, shorter and longer numbers by none |
| `Luhn.ZerosAccepted` | internal/llm/redact.go:75-88 | a row of zeros is accepted |
| `Tune.ReadLabels` | internal/score/tune.go:94-133 | one example for each line that is not blank, with the target its kind of label stands for and its signals; or the number of the first line that is no such label, or that reading broke off |
| `Tune.CaseIgnored` | internal/score/tune.go:108-116 | labels match in any case |
| `Tune.StartIs` | internal/score/tune.go:35-50 | learning starts from the base weights, and from zero for other labelled signals |
| `Tune.ClampWeight` | internal/score/tune.go:79-87 | weights are rounded to the nearest integer inside -100..100 |
| `Tune.RunEpoch` | internal/score/tune.go:57-72 | one epoch over examples and keys, in any map order, is one gradient step |
| `Tune.Tune` | internal/score/tune.go:23-77 | the error cases, and otherwise the clamped result of 2500 epochs from the base weights for every signal known or labelled |
| `Descent.GradientIsSlope` | internal/score/tune.go:58-68 | what the loop accumulates is the gradient of the ridge loss: along any change it gives the slope of the loss at every example |
| `Descent.EpochDescends` | internal/score/tune.go:57-72 | while no example bends the loss more sharply than the learning rate allows, an epoch lowers it by at least a multiple of the squared gradient, positive if the bend is below that |
| `Descent.EpochStrict` | internal/score/tune.go:57-72 | with fewer than a thousand signals per label every epoch makes the loss strictly smaller, unless the gradient is zero, and exactly then the weights stay |
| `Descent.FewSignalsAreGentle` | internal/score/tune.go:122-126 | fewer than a thousand valid confidences satisfy that bound |
| `Descent.TuningNeverWorse` | internal/score/tune.go:20-22 | after any number of epochs the loss is at most that of the base weights, before clamping and rounding |
| `Descent.RoundingMoves` | internal/score/tune.go:73-88 | rounding weights that need no clamping moves an example's score by at most half the sum of its confidences |
| `Descent.UnseenKept` | internal/score/tune.go:20-22 | a signal in no label keeps its base weight, up to the clamp |
| `Descent.ThousandIsTheLimit` | internal/score/tune.go:52-72 | for one label of certain signals the first epoch raises the loss exactly from a thousand signals on |
| `Score.Evaluate` | internal/score/engine.go:50-134 | the loops, hard rules and conflict rules give the specified analysis |
| `Score.ScanFlags` | internal/score/engine.go:78-94 | block, allow and intelligence hits, and a positive strongest contribution exactly when a strong technical signal is there |
| `Score.Confidence` | internal/score/engine.go:138-159 | confidence stays within 0.1..0.99 |
| `ScoreProperties.ConfidencePercent` | internal/score/engine.go:138-163 | confidence in whole percent: what the margin, the signals against the message and the model's agreement are worth |
| `ScoreProperties.ConfidenceGrows` | internal/score/engine.go:136-137 | confidence grows with the margin, with agreeing signals and with the model's standing |
| `ScoreProperties.VerdictAlways` | internal/score/engine.go:61-113 | score and each verdict in closed form for any thresholds, in order or not |
| `ScoreProperties.VerdictCharacterized` | internal/score/engine.go:61-113 | with ordered thresholds, the score in closed form within 0..100, and exactly when each verdict is given |
| `ScoreProperties.FlagsMean` | internal/score/engine.go:73-97 | what blocklist, allowlist, threat intelligence and strong signals are, in terms of the signals handed in and the overrides |
| `ScoreProperties.SortIsStable` | internal/score/engine.go:115-118 | the returned signals are the given ones by falling absolute contribution, ties in input order |
| `ScoreProperties.StableOrderUnique` | internal/score/engine.go:115-118 | no other ordering is like that |
| `ScoreProperties.OrderIrrelevant` | internal/score/engine.go:50-134 | score, verdict, confidence and attack type depend on the multiset of signals only |
| `ScoreProperties.AddingLowersRankIff` | internal/score/engine.go:50-113 | with the thresholds in order and whatever the opinion, a further signal against the message never lowers the score, and lowers the rank exactly when it turns phishing by score into a conflict with a clean opinion |
| `ScoreProperties.StrongLowersRank` | internal/score/engine.go:104-108 | a message of weak signals, phishing against a clean opinion, comes down to review when failed authentication is added |
| `ScoreProperties.MonotoneIff` | internal/score/engine.go:50-113 | without an opinion, that neither score nor rank ever falls holds exactly for thresholds in order or a phishing threshold not above zero |
| `ScoreProperties.StrongerThanOpinion` | internal/score/engine.go:104-113 | a clean opinion against a strong technical signal, at a score above suspicious by what its signal can take off, gives review, or phishing if blocklisted |
| `ScoreProperties.OpinionCannotClear` | internal/signals/semantic/register.go:36-43 | so it does fifteen points above at the default weight, and twelve points above at the ordinary confidence |
| `ScoreProperties.OpinionClearsIff` | internal/score/engine.go:61-113 | for all signals and confidences, the message ends as clean exactly if it is on no list and the sum with the opinion's signal rounds to less than a positive suspicious threshold |
| `ScoreProperties.StrongCleared` | internal/score/engine_test.go:64 | two shipped checks, one strong, are suspicious alone and clean with the ordinary opinion at the default thresholds; and at any in order above zero for some weight of the second |
| `ScoreProperties.AttackTypeKnown` | internal/score/engine.go:162-188 | the attack type is a known one, and none only for a clean verdict |
| `ScoreProperties.AttackTypeBySignals` | internal/score/engine.go:165-188 | which attack type each kind of signal gives, and when the model's opinion is taken |
| `LlmBudget.Budget.EstimateAndReserve` | internal/llm/service.go:336-356 | window and day rollover, both caps, and that a grant leaves the day's spending within its cap |
| `LlmBudget.Budget.Settle` | internal/llm/service.go:358-368 | the estimate is replaced by the actual cost, not below zero |
| `LlmBudget.Budget.Cancel` | internal/llm/service.go:370-380 | the estimate is taken back, not below zero, and the call is not |
| `LlmBudget.SlidingHour` | internal/llm/service.go:336-356 | in every run any hour at all holds at most twice the hourly cap in grants |
| `LlmBudget.SlidingHourReached` | internal/llm/service.go:341-343 | for every cap some run reaches twice the cap within an hour |
| `LlmBudget.FixedWindow` | internal/llm/service.go:310-312 | in every run each window of the budget's own holds at most the cap |
| `LlmBudget.DayIsADay` | internal/llm/service.go:347-349 | grants of one day of the budget are less than 24 hours apart, and different days begin at least 24 hours apart |
| `LlmBudget.SlidingDay` | internal/llm/service.go:336-380 | what the grants of any 24 hours stand for is at most twice the daily cap and what actual costs went beyond their estimates |
| `LlmBudget.SlidingDayReached` | internal/llm/service.go:336-380 | both parts of that bound are reached |
| `LlmBudget.RefusedOnlyIfFull` | internal/llm/service.go:350-355 | a call is refused only if the hour before holds the hourly cap, or the 24 hours before leave less than its cost |
| `LlmBudget.CostPerThousand` | internal/llm/service.go:337 | a thousand tokens cost their price |
| `LlmBudget.CostAdds` | internal/llm/service.go:337 | costs add up |
| `LlmBudget.Conservation` | internal/llm/service.go:336-380 | in every interleaving with same-day closes the spending recorded is settled costs plus open estimates of the day |
| `LlmBudget.ClampNeverFires` | internal/llm/service.go:364-378 | in such runs no close would take the spending below zero |
| `LlmBudget.GrantWithinCap` | internal/llm/service.go:350-352 | right after a grant under a daily cap, settled costs and open estimates of the day are within it |
| `LlmBudget.StaleClose` | internal/llm/service.go:344-380 | closing a grant of an earlier day keeps the record exact only if the cost was the estimate, or nothing is recorded and it cost no more |
| `LlmBudget.StaleCancelForgets` | internal/llm/service.go:344-380 | a concrete run in which it does not |
| `LlmService.ResponseCost` | internal/llm/service.go:382-393 | costs are not negative at prices that are not |
| `LlmService.ResponseCharged` | internal/llm/service.go:382-393 | tokens reported are charged, and those reserved where none are reported |
| `LlmService.Cache.Get` | internal/llm/service.go:282-291 | only the latest unexpired explanation stored under a key is found, and an expired one is dropped |
| `LlmService.Cache.Set` | internal/llm/service.go:293-303 | the explanation is stored, at most one other being evicted, and the cache never grows over its limit |
| `LlmService.Service.CallOnce` | internal/llm/service.go:183-206 | one reservation is closed once: settled at the reply's cost if it is accepted, cancelled otherwise |
| `LlmService.Service.AskInTurn` | internal/llm/service.go:181-214 | the first valid reply answers; otherwise exactly why none did; every provider asked is reserved for at its own price, and closed |
| `LlmService.Service.Explain` | internal/llm/service.go:146-215 | from memory exactly if that holds an unexpired answer, at no cost; else a rendering failure exactly if there is one; else by the chain, remembered; every reservation closed exactly once with at most one settled, and the day's spending grown by exactly the answer's cost or nothing |
| `LlmService.Service.Vision` | internal/llm/service.go:102-131 | the same for the first provider able to see that returns text, the others not being asked |
| `LlmService.AsManyClosedAsGranted` | internal/llm/service.go:181-214 | in the trace of a call grants and closes are equally many, and at most one close settles |
| `Breaker.CircuitBreaker.constructor` | internal/reputation/breaker.go:23-31 | defaults for a threshold below one and a cooldown that is not positive |
| `Breaker.CircuitBreaker.Allow` | internal/reputation/breaker.go:33-44 | admits when closed or cooled down, and then starts afresh |
| `Breaker.CircuitBreaker.Observe` | internal/reputation/breaker.go:46-58 | counts failures, opens at the threshold, closes on success |
| `Breaker.CircuitBreaker.Status` | internal/reputation/breaker.go:60-64 | reported open exactly when it would not admit |
| `Breaker.OpenIffThreshold` | internal/reputation/breaker.go:33-58 | in every run, in whatever order, an opening time is set exactly while failures are at the threshold or above |
| `Breaker.FewFailuresStayClosed` | internal/reputation/breaker.go:46-58 | with fewer failures than the threshold since the last success the circuit is not open |
| `Breaker.OpensWithThreshold` | internal/reputation/breaker.go:46-58 | failures in a row that fill the threshold open the circuit for the cooldown after the last |
| `Breaker.AdmittedAfresh` | internal/reputation/breaker.go:33-44 | a call let through after the cooldown leaves no failure behind |
| `Breaker.RateInFlight` | internal/reputation/client.go:257-269 | of a provider that always fails, with at most m calls in flight, at most (threshold + m - 1) * (length / cooldown + 1) are admitted in any half-open interval |
| `Breaker.RateReached` | internal/reputation/breaker.go:33-58 | for every threshold, m and number of cooldowns some run admits as many |
| `Breaker.Rate` | internal/reputation/breaker.go:12-14 | if each admission is observed before the next, at most threshold * (length / cooldown + 1) are admitted |
| `Breaker.UnobservedUnbounded` | internal/reputation/breaker.go:33-44 | without observing between admissions there is no such bound |
| `ReputationCache.TtlCache.Get` | internal/reputation/client.go:408-417 | an unexpired item is found, an expired one dropped |
| `ReputationCache.TtlCache.Set` | internal/reputation/client.go:419-426 | the item is stored with its expiry, an overfull map being emptied first |
| `ReputationCache.Store.GetReputationCache` | internal/store/sqlite.go:102-120 | an unexpired row is found, an expired one deleted |
| `ReputationCache.Store.PutReputationCache` | internal/store/sqlite.go:122-129 | the row is inserted or replaced, unless the key is empty or the database fails |
| `ReputationCache.AfterLoss` | internal/reputation/client.go:106-168 | whatever failed before, once memory is lost a lookup answers as the map to the latest sets that reached the table |
| `ReputationCache.StaleAfterLossIff` | internal/reputation/client.go:106-168 | exactly when such an answer is not the latest set's |
| `ReputationCache.HitIsLatestOrReached` | internal/reputation/client.go:106-168 | whatever fails, a hit is the latest set under its key or the latest that reached the table, unexpired |
| `ReputationCache.RefinesOneMap` | internal/reputation/client.go:106-168 | if the latest set under a key reached the table, both levels are for it one map to the latest set, whatever else failed and across losses of memory |
| `ReputationCache.HitWasSet` | internal/reputation/client.go:106-168 | whatever fails, a hit was set under its key, has not expired and is of the kind asked for, so no type assertion fails |
| `ReputationCache.MemoryAnswers` | internal/reputation/client.go:406-426 | with nothing lost and at most fifty thousand keys, memory alone finds the latest set of each until it expires |
| `ReputationCache.FoundAgain` | internal/reputation/client.go:106-127 | what was found is found again until it expires, even without the database |
| `ReputationCache.ExpiredDropped` | internal/reputation/client.go:406-417 | what has expired is dropped as it is come upon, and nothing else |
| `ReputationCache.MemoryBounded` | internal/reputation/client.go:419-426 | memory never holds more than one key above its limit |
| `ReputationCache.AfterExpiry` | internal/reputation/client.go:106-168 | once the latest set has expired, what a lookup finds is the latest that reached the table, and until that expires it is found |
| `ReputationCache.MissedSetComesBack` | internal/reputation/client.go:129-140 | the shortest runs in which an older answer comes back, by loss of memory or by expiry |
| `Reputation.Client.AllowProvider` | internal/reputation/client.go:79-91 | the named breaker decides, created closed on first use, and no other changes |
| `Reputation.Client.ObserveProvider` | internal/reputation/client.go:93-100 | the outcome goes to the named breaker alone |
| `Reputation.Client.GetCached` | internal/reputation/client.go:106-159 | lookup through both levels, as specified; a hit rests on an unexpired finding of the right kind |
| `Reputation.Client.SetCached` | internal/reputation/client.go:129-168 | an answer goes to both levels, with the evidence that justifies it |
| `Reputation.Client.Ask` | internal/reputation/client.go:257-269 | one guarded call: an open circuit prevents it and stays as it was, otherwise the breaker learns what it came to |
| `Reputation.Client.ScanAddresses` | internal/reputation/client.go:207-219 | the first address that means anything decides whether a zone lists, fails or clears |
| `Reputation.ZoneSaysAt` | internal/reputation/client.go:195-220 | when a zone lists an address and when it clears it, over all answers of a name server |
| `Reputation.Client.LookUpZones` | internal/reputation/client.go:195-220 | zones are looked up in turn, up to the first that lists |
| `Reputation.Client.AskZones` | internal/reputation/client.go:191-222 | the zones share one breaker, which admits all or none and learns of a failure only if no zone lists |
| `Reputation.Client.AskAddressProviders` | internal/reputation/client.go:190-239 | the zones first, and the address database only if none lists, behind its own breaker |
| `Reputation.Client.AskFeeds` | internal/reputation/client.go:257-308 | enabled feeds are asked in turn, up to the first that lists; exactly their breakers move, each as its feed's outcome says |
| `Reputation.FeedsByFlags` | internal/reputation/client.go:257-308 | the feeds asked are those switched on, each once and in order |
| `Reputation.Client.Conclude` | internal/reputation/client.go:240-244 | a listing or a unanimous negative is remembered at both levels for its lifetime, a failure is not |
| `Reputation.ConclusionFound` | internal/reputation/client.go:240-244 | what was concluded is found from then on for as long as it is good; a failure changes nothing |
| `Reputation.Client.IPListed` | internal/reputation/client.go:176-245 | the decision flow for addresses: remembered answers before asking, then providers in turn; the new cache, findings and breakers in full |
| `Reputation.Client.DomainListed` | internal/reputation/client.go:248-314 | the decision flow for domains, the local list first: the new cache, findings and breakers in full |
| `Reputation.Client.DomainAge` | internal/reputation/client.go:339-363 | a failure is no answer and not remembered; a remembered age is not asked for again; an age rests on an unexpired finding |
| `ReputationRuns.Serve` | internal/reputation/client.go:170-363 | any call on a client, whatever providers say, is a step as the run theorems take it |
| `ReputationRuns.ServeSessions` | internal/reputation/client.go:45-77 | any calls on any clients set up one after the other over one table, the database answering each lookup and write or not, make such a run |
| `ReputationRuns.EveryFindingHasOrigin` | internal/reputation/client.go:1-4 | in every run, restarts included, all that is remembered was found by one call under its key: listed by a provider switched on, or cleared by each of them with none failing or kept from by an open circuit |
| `ReputationRuns.AnswersTraceToProviders` | internal/reputation/client.go:1-4 | in every run an answer that is not a failure is what providers said in that call or an earlier one under the same key, within its lifetime since |
| `ReputationRuns.LocalAnswersTrace` | internal/reputation/client.go:170-173 | anything is listed without that exactly if it is a domain added to that client's local list before |
| `Mime.WalkBody` | internal/parse/eml.go:70-156 | the recursive walk over the shared mail and counter gives the specified outcome, also when it fails |
| `Mime.WalkExplained` | internal/parse/eml.go:70-156 | the outcome of a walk from the parts it finds in document order |
| `Mime.WalkWhole` | internal/parse/eml.go:70-156 | the first thing wrong in document order fails the walk; otherwise all parts are counted and bodies, attachments, images and subject are those found, in order |
| `Mime.BodyIsJoin` | internal/parse/eml.go:173-182 | appending trimmed texts one by one is the blank-line join of those that are not empty |

## Left out

- HTTP handlers, command line, user interface, mail receivers, notifiers, licences and encryption: network and library plumbing.
- The provider calls themselves (RDAP, URLhaus, OpenPhish, Safe Browsing, AbuseIPDB, name servers, language models) and the check of a model's JSON output: each is an outcome given to the model.
- `FileHashListed`, provider error texts and which of several errors is reported: easy members.
- RAR4, ZIP, 7-Zip, OLE, PDF, image and QR parsing: fixed-offset reads or libraries, with no printer in the repository to invert.
- MIME header, charset and transfer decoding: `Mime` starts from what decoding makes of the first limit + 1 encoded bytes of a part, which may cut off an encoded part that would be too big.
- The regular expressions of the redactor, redaction itself, the explanation cache key, prompt rendering, recommendations and the individual signal checks.
- JSON decoding of label lines is given.
- GetReputationCache: deletes an expired row whenever the row could be read; that only the deletion fails is not modelled.
- Evaluate: does not carry recommendations and the fields the code passes through.
- PutReputationCache: does not model the refusal of an empty value or a zero expiry, which no caller passes: values are JSON and expiries are computed from the clock.
- Floating-point rounding, and clock readings that differ within one locked operation (a cached set reads the clock once for both levels here).
- Interleaving of concurrent calls inside one `Explain`, `Vision`, `IPListed` or `DomainListed`: those are modelled one call at a time, while runs of reservations, closes, breaker events and cache operations are in any order.
- StableSort: gives the result of the library's stable sort, pinned down by `StableOrderUnique`, not its in-place algorithm.
- GetCached: stands for the two functions of the same shape for lists and ages; likewise SetCached.
- DomainListed: takes the domain already in lower case, as the code makes it first; likewise AddLocalBlock.
- Rate: is about a provider that always fails; a success in between closes the circuit and starts the count again. Likewise RateInFlight.
- ReputationRuns: calls follow one another; `FileHashListed` is not among them.
