# Joinstr: a model of the coinjoin core, with proofs

Joinstr lets several participants build one coinjoin transaction over a Nostr relay. Each participant
collects the others' output addresses, freezes an output-only transaction, signs its own coin alone
against it (`ALL|ANYONECANPAY`), collects the others' signed inputs, and assembles the final
transaction by itself. Nobody coordinates: the design works only if everyone arrives at the same
transaction from messages that arrive in different orders, and if every lone signature is still valid
there.

This project models the code that has to get this right, and proves that it does, or exactly when it
does not.

| file | what it holds |
|---|---|
| `Permutations.dfy` | sequences up to reordering: sums, maps, a stable sort, pigeonhole |
| `Bitcoin.dfy`, `Serialization.dfy` | transactions, the orders used for sorting, the weight, and the bytes it counts (BIP 141, BIP 144) |
| `Float64.dfy` | rounding of quotients to 53 bits, and the fee test built on it |
| `CoinJoinSpec.dfy`, `CoinJoinLaws.dfy`, `CoinJoin.dfy` | the transaction builder: operations as functions, their laws, and the object with its loops |
| `Sighash.dfy`, `Signer.dfy` | the BIP 143 digest as the data it commits to, and signing |
| `Nostr.dfy` | pool messages and their JSON form |
| `JoinstrSpec.dfy`, `JoinstrLaws.dfy` | one participant: a step machine, its invariants, and its panics |
| `JoinstrOutcomes.dfy`, `JoinstrCollected.dfy` | what each step does, case by case, and what a run has collected at any time |
| `JoinstrCourse.dfy`, `Joinstr.dfy` | why every run ends, with a message queue and a clock; the object with its polling loops |
| `Network.dfy`, `Reached.dfy`, `Tightness.dfy` | any number of participants around one mailbox: agreement, a run that reaches it, and why its bound is needed |
| `ElectrumResponse.dfy`, `ElectrumListener.dfy`, `ElectrumRuns.dfy`, `ElectrumReports.dfy` | the electrum answers, the background loop, its runs over any number of passes, and what its consumer hears |
| `ElectrumClient.dfy` | the synchronous calls and coin discovery |
| `HotSigner.dfy` | the signer's store of discovered coins |

`dafny verify dfyconfig.toml` checks all of it.

## Reading guide

- **The builder.** The class is proved equal, call by call, to functions on values; the laws are about
  the functions. A hash set is walked in an arbitrary order (`:|`), and the template is still unique.
- **The participant.** One step of the machine is one pass through one of the loops. It reads the clock
  once and polls the queue at most once; what a poll returns, whether a send succeeds and what the
  clock says is arbitrary at every step. The object's methods are proved to follow the machine tick by
  tick, and to return if the clock moves whenever a poll finds nothing and each poll that finds a message
  takes it off a queue. A queue and a clock that work so are modelled too. What the machine does is said
  again from outside: each step by its outcomes, and each run by what it took from the queue.
- **The network.** A poll by any participant may return any message ever posted, any number of times,
  or nothing; outsiders may post anything. This covers reordering, repetition, loss and delay. A run in
  which two participants exchange everything and agree is given in full.
- **The electrum loop.** One pass is a request of the consumer and a message of the server, both
  arbitrary. What the consumer hears is said in terms of the answers, message by message and over runs.

What the proofs found about the code:

- Finalization depends on the order of arrival in exactly one situation: an amount is missing *and* the
  known amounts alone overflow 64 bits (`OrderIrrelevantIff`).
- The fee rate is documented in sats per virtual byte, but the test divides by weight units. It asks
  for four times as much: a fee that meets the documented floor is refused exactly when it is below the
  floor per weight unit, up to rounding of amounts above 2^53 (`DocumentedFloorRejectedIff`). The model
  follows the code.
- Above 2^53 satoshis, which claims can reach, the floating point test errs in both directions: it
  accepts a fee one satoshi short and refuses one that meets the floor (`FeeTestErrsBothWays`);
  `FeeTestIff` gives its exact verdict for every fee.
- Two claims of 2^63 satoshis crash a participant in its input round (`RegisterPanicsIff`), and a coin
  whose private key does not belong to its script crashes it while signing (`SignRoundPanicsIff`).
- A signed input that arrives while outputs are still collected panics (`OutputRoundPanicsIff`).
- A partial answer to a history batch makes the loop resend the batch; the full answer that follows
  repeats an id, and that panics (`PartialAnswerThenPanic`, `RunPanicsIff`).
- A printed signed input whose amount is unknown cannot be read back (`InputRoundTripIff`).
- `FeeTooLow` is returned with the inputs already sorted: no input is lost, but their order changes
  (`CoinJoin.CoinJoin.FinalizeTx`).

## Model

| member | source | states |
|---|---|---|
| `CoinJoin.CoinJoin.AddOutput` | rust/joinstr/src/coinjoin/mod.rs:103-107 | an address is added unless it is already there; nothing else changes |
| `CoinJoin.CollectOutputs` | rust/joinstr/src/coinjoin/mod.rs:128-173 | whatever order the hash set is walked in, each address yields exactly one output of the denomination |
| `CoinJoin.CoinJoin.BuildTemplate` | rust/joinstr/src/coinjoin/mod.rs:166-186 | the output-only transaction does not depend on that order |
| `CoinJoin.CoinJoin.CheckAddress` | rust/joinstr/src/coinjoin/mod.rs:145-162 | one address is asked about until the backend answers or the shared failure budget is used up; the last answer decides |
| `CoinJoin.CoinJoin.CheckAddresses` | rust/joinstr/src/coinjoin/mod.rs:139-164 | at most (addresses + 4) calls; a backend error exactly after five failures in all; success means every address was answered unused |
| `CoinJoin.CoinJoin.GeneratePsbt` | rust/joinstr/src/coinjoin/mod.rs:126-189 | too few addresses, then an existing template, then the backend; on success the template is frozen, on any failure nothing changes |
| `CoinJoin.CoinJoin.CheckAmount` | rust/joinstr/src/coinjoin/mod.rs:214-239 | at most five calls, all but the last failed, and the last answer decides: missing outpoint, differing amount, or accepted |
| `CoinJoin.CoinJoin.IsRegistered` | rust/joinstr/src/coinjoin/mod.rs:206-210 | whether some registered input already spends the outpoint |
| `CoinJoin.CoinJoin.AddInput` | rust/joinstr/src/coinjoin/mod.rs:204-245 | an input is refused without asking the backend exactly if its outpoint, txid and output number, is registered; on success it comes last and a claimed amount equals the backend's; a failing call changes nothing |
| `CoinJoin.CoinJoin.InputAmount` | rust/joinstr/src/coinjoin/mod.rs:280-303 | one backend call per input, or the peer's claim without a backend |
| `CoinJoin.CoinJoin.SumInputs` | rust/joinstr/src/coinjoin/mod.rs:279-303 | the running sum stops at the first unknown amount or when 64 bits overflow |
| `CoinJoin.CoinJoin.AppendInputs` | rust/joinstr/src/coinjoin/mod.rs:329-336 | the template followed by the inputs in their present order |
| `CoinJoin.CoinJoin.SortAndClose` | rust/joinstr/src/coinjoin/mod.rs:311-347 | inputs are sorted in place, the fee is tested on the weight of the assembled transaction, and only an accepted one is stored |
| `CoinJoin.CoinJoin.FinalizeTx` | rust/joinstr/src/coinjoin/mod.rs:268-347 | the whole finalization against any answers of the backend, with its errors in the source's order |
| `CoinJoin.CoinJoin.GenerateTx` | rust/joinstr/src/coinjoin/mod.rs:262-349 | a dry run changes nothing and calls nobody; otherwise the finalization |
| `CoinJoinLaws.TemplateShape` | rust/joinstr/src/coinjoin/mod.rs:166-186 | the template is of version 2 with lock time 0, pays each address once, each the denomination, in script order ("Transaction Outputs" of BIP 69), and has no inputs |
| `CoinJoinLaws.EveryAddressPaid` | rust/joinstr/src/coinjoin/mod.rs:166-186 | no collected address is left unpaid |
| `CoinJoinLaws.TemplateTotal` | rust/joinstr/src/coinjoin/mod.rs:270-275 | the outputs add up to the denomination times their number |
| `CoinJoinLaws.TemplateEnumeration` | rust/joinstr/src/coinjoin/mod.rs:166-178 | any two enumerations of the addresses give the same template, even if addresses share a script |
| `CoinJoinLaws.OutputConfluence` | rust/joinstr/src/coinjoin/mod.rs:126-189 | builders that hold the same set of addresses freeze the same template |
| `CoinJoinLaws.AddOutputsCollects` | rust/joinstr/src/coinjoin/mod.rs:103-107 | any arrivals leave a list without repeats, of exactly the addresses that arrived |
| `CoinJoinLaws.ArrivalOrderIrrelevant` | rust/joinstr/src/coinjoin/mod.rs:103-189 | the same addresses in any order and with any repeats give the same template and the same verdict |
| `CoinJoinLaws.GeneratePsbtOutcome` | rust/joinstr/src/coinjoin/mod.rs:126-189 | exactly how freezing turns out: too few addresses, a template already, or a template with one output per address |
| `CoinJoinLaws.AddInputIff` | rust/joinstr/src/coinjoin/mod.rs:204-245 | an input is accepted exactly if no registered one spends the same output of the same transaction; it then comes last |
| `CoinJoinLaws.AddInputsCollects` | rust/joinstr/src/coinjoin/mod.rs:204-245 | after any arrivals exactly the outpoints that arrived are registered, each with the input that came first for it |
| `CoinJoinLaws.AssembledShape` | rust/joinstr/src/coinjoin/mod.rs:329-336 | assembling adds the inputs, one by one in their order, and changes nothing else |
| `CoinJoinLaws.DryRunShows` | rust/joinstr/src/coinjoin/mod.rs:262-349 | a dry run shows the template with the inputs in the order they came in, and needs a template |
| `CoinJoinLaws.TallyMeaning` | rust/joinstr/src/coinjoin/mod.rs:279-303 | without a missing amount the running sum is the order-free sum, or overflows; with one there is no total, and the missing amount is reported if the known ones do not overflow |
| `CoinJoinLaws.TallyOverflowsIff` | rust/joinstr/src/coinjoin/mod.rs:279-303 | the running sum overflows exactly if some prefix without a missing amount does |
| `CoinJoinLaws.SortedInputs` | rust/joinstr/src/coinjoin/mod.rs:311-323 | sorting yields a permutation, strictly increasing by txid, then output number |
| `CoinJoinLaws.FinalizeConfluence` | rust/joinstr/src/coinjoin/mod.rs:262-349 | the same inputs in any order finalize to the identical transaction, or to the same error with the same figures |
| `CoinJoinLaws.AmbiguousOrders` | rust/joinstr/src/coinjoin/mod.rs:279-303 | when an amount is missing and the others overflow, one order reports the missing amount and another panics |
| `CoinJoinLaws.OrderIrrelevantIff` | rust/joinstr/src/coinjoin/mod.rs:262-349 | finalization ignores the order of arrival exactly when that situation does not arise |
| `CoinJoinLaws.FinalizeSucceedsIff` | rust/joinstr/src/coinjoin/mod.rs:262-349 | exactly when finalization succeeds, and then: inputs permuted, strictly increasing, money in = money out + fee, fee accepted |
| `CoinJoinLaws.FinalizeByAmountsIff` | rust/joinstr/src/coinjoin/mod.rs:262-349 | the same for any amounts a backend reports: success exactly if they fund the sorted transaction, which is then stored |
| `CoinJoinLaws.FinalizeErrors` | rust/joinstr/src/coinjoin/mod.rs:262-349 | exactly which error any amounts lead to, with its figures, and that only a refused fee leaves anything changed: the inputs sorted |
| `CoinJoinLaws.FinalizePanicsIff` | rust/joinstr/src/coinjoin/mod.rs:270-303 | finalization by claims panics exactly if the outputs overflow or a prefix of the claims does |
| `CoinJoinLaws.AcceptedFeeMeetsRate` | rust/joinstr/src/coinjoin/mod.rs:35-37 | a fee accepted by any amounts meets the documented floor per virtual byte ("Transaction size calculations" of BIP 141), and the floor per weight unit unless both exceed 2^53 |
| `CoinJoinLaws.DocumentedFloorRejectedIff` | rust/joinstr/src/coinjoin/mod.rs:339-344 | of the fees that meet the documented floor, exactly those short by half a unit of the scaled test are refused, which is below the floor per weight unit unless both exceed 2^53; the documented floor itself always is |
| `CoinJoinLaws.AddOutputInv` | rust/joinstr/src/coinjoin/mod.rs:103-107 | collecting an address keeps the invariant and everything frozen |
| `CoinJoinLaws.GeneratePsbtInv` | rust/joinstr/src/coinjoin/mod.rs:131-135 | freezing keeps the invariant; a refusal changes nothing |
| `CoinJoinLaws.AddInputInv` | rust/joinstr/src/coinjoin/mod.rs:206-210 | outpoints stay distinct; a refusal changes nothing |
| `CoinJoinLaws.FinalizeInv` | rust/joinstr/src/coinjoin/mod.rs:262-349 | for any answers of the backend the invariant holds after finalization and no input is lost, also when it fails |
| `CoinJoinLaws.FinalizeStores` | rust/joinstr/src/coinjoin/mod.rs:268-348 | finalization succeeds exactly when it stores a transaction where none was |
| `CoinJoinLaws.EveryRunKeepsInvariant` | rust/joinstr/src/coinjoin/mod.rs:103-349 | over every sequence of calls, whatever a backend answers or refuses: distinct outputs, distinct outpoints, template and final transaction written once, nothing collected lost |
| `CoinJoinLaws.EveryFinalTxIsFunded` | rust/joinstr/src/coinjoin/mod.rs:268-348 | over every sequence of calls, with or without a backend: one call froze the final transaction, and the amounts it accepted exceed the outputs by exactly the fee that passed |
| `CoinJoinLaws.EveryClaimedRunIsFunded` | rust/joinstr/src/coinjoin/mod.rs:268-348 | without a backend these amounts are the claims of the transaction's own inputs |
| `CoinJoinLaws.EveryNewBuilder` | rust/joinstr/src/coinjoin/mod.rs:53-349 | both laws for a new builder after any calls |
| `Bitcoin.WeightPermutation` | rust/joinstr/src/coinjoin/mod.rs:340 | the weight the fee is tested against does not depend on the order of the inputs |
| `Serialization.WeightIsSerialized` | rust/joinstr/src/coinjoin/mod.rs:340 | the weight is three times the bytes of the transaction without witnesses plus the bytes of it as sent ("Specification" of BIP 144), for every transaction; a virtual byte is four weight units |
| `Bitcoin.OutPointLtIff` | rust/joinstr/src/coinjoin/mod.rs:311-323 | the order of inputs compares outpoints like two-digit numbers, the txid first |
| `Bitcoin.LexLeIff` | rust/joinstr/src/coinjoin/mod.rs:174-178 | the order of scripts: the first byte that differs decides, and a beginning comes before the whole |
| `Bitcoin.NetworksOfAddress` | rust/joinstr/src/joinstr/mod.rs:1358-1381 | on which networks an address counts as valid |
| `Float64.RoundRatioNearest` | rust/joinstr/src/coinjoin/mod.rs:341 | the modelled quotient is a nearest 53-bit number to the exact one |
| `Float64.FeeTestExact` | rust/joinstr/src/coinjoin/mod.rs:341 | while the fee, or the fee asked for, is at most 2^53 satoshis, the floating point test is the integer comparison |
| `Float64.FeeTestIff` | rust/joinstr/src/coinjoin/mod.rs:341 | the exact verdict for every fee and weight: refused exactly if the rounded fee is short by half a unit at 53 bits, ties going to even |
| `Float64.FeeTestErrsBothWays` | rust/joinstr/src/coinjoin/mod.rs:341 | beyond 2^53 a fee one satoshi short is accepted, and one that meets the floor exactly is refused |
| `Sighash.DigestEqualIff` | rust/joinstr/src/signer/mod.rs:305-330 | a digest of type 0x81, ALL plus ANYONECANPAY ("Specification" of BIP 143), survives exactly if version, lock time, outputs, the signed input, its amount and its script code do |
| `Sighash.DigestCommits` | rust/joinstr/src/signer/mod.rs:305-330 | digests of every type commit to the signed input, its amount and script code, version, lock time and the type |
| `Sighash.PlainAllDoesNotSurvive` | rust/joinstr/src/signer/mod.rs:305-330 | without ANYONECANPAY a lone signature never survives another input |
| `Signer.SignSucceedsIff` | rust/joinstr/src/signer/mod.rs:282-367 | exactly when signing a coin succeeds |
| `Signer.SignPanicsIff` | rust/joinstr/src/signer/mod.rs:282-349 | signing panics exactly at a hardened path, or if the private key at the path does not belong to the derived script |
| `Signer.SignErrors` | rust/joinstr/src/signer/mod.rs:282-367 | exactly which error signing ends with |
| `Signer.ScriptsAtPath` | rust/joinstr/src/signer/mod.rs:187-206 | the script at a path pays to the hash of the public key derived there; the script its signature commits to is the old form for the same hash |
| `Signer.SignedInputShape` | rust/joinstr/src/signer/mod.rs:340-366 | a signed input names the coin, claims the coin's own value and sequence, and its witness is a signature that ends in its type byte and the key that the coin is locked to |
| `Signer.SignatureSurvives` | rust/joinstr/src/signer/mod.rs:282-367 | a coin signed alone over the template is a valid spend in every transaction with the same outputs, wherever its input stands |
| `Signer.AssembledSpendValid` | rust/joinstr/src/coinjoin/mod.rs:329-336 | every signed input is valid in whatever transaction the builder assembles around it |
| `Signer.FinalizedSpendValid` | rust/joinstr/src/coinjoin/mod.rs:262-349 | after a successful finalization a registered coin is spent, and validly so |
| `Nostr.PrintInput` | rust/joinstr/src/nostr/mod.rs:398-408 | the JSON object of a signed input, which reads back as the input exactly if its amount is known |
| `Nostr.ReadInput` | rust/joinstr/src/nostr/mod.rs:426-456 | reads every printed input back, the witness from its own field; every error in the source's order |
| `Nostr.PrintMessage` | rust/joinstr/src/nostr/mod.rs:460-496 | the JSON object of a pool message, which reads back as the message exactly if it survives |
| `Nostr.ReadMessage` | rust/joinstr/src/nostr/mod.rs:304-381 | reads a message with every error in the source's order; what was read, other than a PSBT, prints and reads back to itself |
| `Nostr.InputRoundTripIff` | rust/joinstr/src/nostr/mod.rs:398-456 | a signed input survives printing and reading exactly if its amount is known; the witness comes back from its own field |
| `Nostr.MessageRoundTripIff` | rust/joinstr/src/nostr/mod.rs:304-496 | exactly which messages survive: all but PSBTs and inputs with no amount |
| `Nostr.ReprintStable` | rust/joinstr/src/nostr/mod.rs:304-496 | whatever a message was read from, printing and reading it again gives the same message |
| `Nostr.FromPsbtIff` | rust/joinstr/src/nostr/mod.rs:40-66 | exactly which PSBTs offer an input, which witness it carries, and which error the others give |
| `Nostr.PrintedMessage` | rust/joinstr/src/nostr/mod.rs:460-496 | version 1, the type name, and the one field of each kind of message |
| `Nostr.PrintedInput` | rust/joinstr/src/nostr/mod.rs:398-408 | the fields of a printed input |
| `Nostr.ReadHead` | rust/joinstr/src/nostr/mod.rs:304-318 | whatever is read had version 1 and its own type name; other versions are refused by name |
| `Nostr.MessageErrors` | rust/joinstr/src/nostr/mod.rs:318-381 | the error for a message whose field is missing or does not decode |
| `Nostr.InputErrors` | rust/joinstr/src/nostr/mod.rs:426-456 | which of the ways an input can be unreadable is reported, and that all other inputs are read |
| `Joinstr.Joinstr.PollCredentials` | rust/joinstr/src/joinstr/mod.rs:462-490 | only credentials for this pool connect, and they replace the key |
| `Joinstr.Joinstr.JoinPool` | rust/joinstr/src/joinstr/mod.rs:443-496 | joining asks, then waits for credentials up to the start of the pool |
| `Joinstr.Joinstr.Post` | rust/joinstr/src/joinstr/mod.rs:1224-1271 | posting builds the pool from the set parameters and enters output registration |
| `Joinstr.Joinstr.PollPeers` | rust/joinstr/src/joinstr/mod.rs:561-592 | a peer counts once; the initiator answers it with the credentials |
| `Joinstr.Joinstr.PeerLoop` | rust/joinstr/src/joinstr/mod.rs:550-598 | the peer round follows the machine and ends: each pass that stays takes a message or lets the clock move towards the deadline |
| `Joinstr.Joinstr.RegisterOutput` | rust/joinstr/src/joinstr/mod.rs:1329-1346 | the own address is sent, and recorded only if the send succeeded |
| `Joinstr.Joinstr.OpenOutputRound` | rust/joinstr/src/joinstr/mod.rs:605-615 | the own address goes into the builder and to the pool; then the checked end of the timeline |
| `Joinstr.Joinstr.ReceiveOutputs` | rust/joinstr/src/joinstr/mod.rs:1358-1381 | addresses of another network are dropped, the others collected |
| `Joinstr.Joinstr.OutputLoop` | rust/joinstr/src/joinstr/mod.rs:616-657 | the output round follows the machine, whose outcomes and collecting are stated below, and ends, by the same measure |
| `Joinstr.Joinstr.CloseOutputRound` | rust/joinstr/src/joinstr/mod.rs:659-672 | expired, too few peers, or a count that differs from the peers': an error; otherwise the builder is handed over |
| `Joinstr.Joinstr.RegisterOutputs` | rust/joinstr/src/joinstr/mod.rs:513-675 | the whole output registration follows the machine to the outcome that `JoinstrCollected.RegistrationSucceedsIff` describes |
| `Joinstr.Joinstr.GenerateUnsignedTx` | rust/joinstr/src/joinstr/mod.rs:1487-1493 | the template is frozen in the participant's builder, errors passed on |
| `Joinstr.Joinstr.RegisterInput` | rust/joinstr/src/joinstr/mod.rs:1397-1427 | the coin is given away, signed over the template, and the signed input sent and recorded, as `JoinstrOutcomes.OwnInputOutcome` says; it is not added to the builder |
| `Joinstr.Joinstr.TryRegisterInput` | rust/joinstr/src/joinstr/mod.rs:1437-1461 | an input the builder refuses is dropped without an error |
| `Joinstr.Joinstr.TryFinalizeCoinjoin` | rust/joinstr/src/joinstr/mod.rs:1468-1479 | nothing before there are as many inputs as outputs; a refused finalization is no error |
| `Joinstr.Joinstr.PollInputs` | rust/joinstr/src/joinstr/mod.rs:723-752 | an input, or a one-input PSBT, is registered and finalization is tried; an unusable PSBT is an error |
| `Joinstr.Joinstr.InputLoop` | rust/joinstr/src/joinstr/mod.rs:715-755 | the input round follows the machine and ends, by the same measure |
| `Joinstr.Joinstr.RegisterInputs` | rust/joinstr/src/joinstr/mod.rs:692-761 | the whole input registration follows the machine |
| `Joinstr.Joinstr.BroadcastTx` | rust/joinstr/src/joinstr/mod.rs:1507-1516 | a missing transaction or a failed broadcast is an error; otherwise it becomes the final one |
| `Joinstr.Joinstr.StartCoinjoinBlocking` | rust/joinstr/src/joinstr/mod.rs:850-927 | with a clock that moves on empty polls and a queue it returns, having followed the machine; on success the transaction pays everyone and spends only received inputs |
| `JoinstrLaws.BeginSound` | rust/joinstr/src/joinstr/mod.rs:850-880 | a fresh participant starts inside the invariant, whichever pool it joins or posts |
| `JoinstrLaws.StepSound` | rust/joinstr/src/joinstr/mod.rs:513-761 | every step keeps the invariant: distinct peers that are the peers seen, clean builder lists, a template for all outputs, a complete final transaction |
| `JoinstrLaws.RunSound` | rust/joinstr/src/joinstr/mod.rs:850-927 | the invariant holds along every run, for every clock and every message stream |
| `JoinstrLaws.TemplateCannotFail` | rust/joinstr/src/joinstr/mod.rs:1487-1493 | after output registration, freezing the template cannot fail |
| `JoinstrOutcomes.TimelinesAre` | rust/joinstr/src/joinstr/mod.rs:1281-1316 | the start of the pool, whether it may start early, and both deadlines, with the exact overflow of each sum |
| `JoinstrOutcomes.BeginErrors` | rust/joinstr/src/joinstr/mod.rs:850-880 | exactly with which error a run fails to begin |
| `JoinstrOutcomes.JoinOutcome` | rust/joinstr/src/joinstr/mod.rs:443-461 | joining sends the own key and waits until the pool starts |
| `JoinstrOutcomes.PostOutcome` | rust/joinstr/src/joinstr/mod.rs:1224-1271 | a posted pool carries the own key and network, and the denomination, peer count, timeline and fee that were set |
| `JoinstrOutcomes.EnterOutcome` | rust/joinstr/src/joinstr/mod.rs:513-549 | output registration starts with an empty builder on the terms of the pool, the initiator with a request of its own |
| `JoinstrOutcomes.JoiningOutcome` | rust/joinstr/src/joinstr/mod.rs:462-490 | only credentials for this pool end the waiting before its start, and bring the key |
| `JoinstrOutcomes.PeerRoundOutcome` | rust/joinstr/src/joinstr/mod.rs:550-598 | each new request is recorded and answered by the initiator with the pool id and its own key, unless the round is over |
| `JoinstrOutcomes.OwnOutputOutcome` | rust/joinstr/src/joinstr/mod.rs:605-615 | the own address is sent, recorded and collected; a failed send or an overflow ends the run |
| `JoinstrOutcomes.OutputRoundCollects` | rust/joinstr/src/joinstr/mod.rs:616-657 | while the round is open, an address valid for the network joins the set of outputs, and any other message but an input leaves the builder alone |
| `JoinstrOutcomes.OutputCheckOutcome` | rust/joinstr/src/joinstr/mod.rs:659-672 | exactly when the output round is accepted, and which error it is otherwise |
| `JoinstrOutcomes.SignRoundOutcome` | rust/joinstr/src/joinstr/mod.rs:882-905 | from the checks on: the template is frozen, a coin is signed over it and its signed input sent and recorded, or which failure there is; nothing else is sent |
| `JoinstrOutcomes.OwnInputOutcome` | rust/joinstr/src/joinstr/mod.rs:1397-1427 | a signed input is sent and recorded exactly if signing and sending succeed; the coin is given away in any case |
| `JoinstrOutcomes.InputRoundOutcome` | rust/joinstr/src/joinstr/mod.rs:715-755 | an input that arrives in time, as such or as a PSBT, joins the builder's inputs unless its outpoint is registered; an unusable PSBT ends the run |
| `JoinstrOutcomes.BroadcastOutcome` | rust/joinstr/src/joinstr/mod.rs:1507-1516 | the run succeeds exactly if there is a final transaction and, with a backend, its broadcast succeeds |
| `JoinstrCollected.RunCollects` | rust/joinstr/src/joinstr/mod.rs:513-755 | at any time of any run: the peers are those whose requests were taken, the outputs exactly the valid addresses taken by polls of the output round and then the own one, the inputs exactly those taken, the first for each outpoint |
| `JoinstrCollected.RegistrationSucceedsIff` | rust/joinstr/src/joinstr/mod.rs:513-675 | output registration succeeds exactly if it is checked in time and the different addresses taken, with the own one, are as many as the peers taken, and these are enough |
| `JoinstrLaws.SignRoundSound` | rust/joinstr/src/joinstr/mod.rs:882-905 | signing keeps the invariant and never fails on the builder |
| `JoinstrLaws.OutputCheckSound` | rust/joinstr/src/joinstr/mod.rs:659-672 | what passes the closing checks has one output per peer, at least as many as the pool wants, exactly as many if it may start early |
| `JoinstrLaws.InputDeadlineSound` | rust/joinstr/src/joinstr/mod.rs:700-707 | the unchecked deadline addition overflows exactly for a duration counted from now that is too long; otherwise the deadline is that of the output round, never before the start |
| `JoinstrLaws.FinalizeTemplated` | rust/joinstr/src/joinstr/mod.rs:1468-1479 | a refused finalization leaves a builder that can go on; an accepted one spends at least one input per output |
| `JoinstrLaws.RoundCompletesIff` | rust/joinstr/src/joinstr/mod.rs:1437-1479 | exactly when an arriving input ends the input round: the inputs then held are as many as the outputs and fund the transaction |
| `JoinstrLaws.CompletingInputFinishes` | rust/joinstr/src/joinstr/mod.rs:715-761 | the input that completes the round in time leads to a finished run in three steps |
| `JoinstrLaws.RunSourced` | rust/joinstr/src/joinstr/mod.rs:513-761 | along every run each output was received or is the own one that was sent, and each input was received |
| `JoinstrLaws.StepSigned` | rust/joinstr/src/joinstr/mod.rs:1397-1427 | a frozen template never changes, and no signed input is sent that was not signed over it |
| `JoinstrLaws.SuccessMeans` | rust/joinstr/src/joinstr/mod.rs:850-927 | a successful run: one output of the denomination per peer, the own one among them, at least as many distinct received inputs, an accepted fee |
| `JoinstrLaws.OutputRoundPanicsIff` | rust/joinstr/src/joinstr/mod.rs:616-657 | the unfinished branch is reached exactly by a signed input during an open output round |
| `JoinstrLaws.PeerRoundNeverPanics` | rust/joinstr/src/joinstr/mod.rs:561-592 | a join request without a key never reaches the peer round (rust/joinstr/src/nostr/sync/mod.rs fills it in) |
| `JoinstrLaws.RegisterPanicsIff` | rust/joinstr/src/joinstr/mod.rs:1437-1479 | an arriving input makes the participant panic exactly if there are enough inputs and the outputs, or a prefix of the claims, overflow |
| `JoinstrLaws.SignRoundPanicsIff` | rust/joinstr/src/joinstr/mod.rs:882-905 | signing the own coin makes it panic exactly if the signer panics on that coin |
| `JoinstrLaws.PanicsIff` | rust/joinstr/src/joinstr/mod.rs:513-927 | a step of a run panics for a reason exactly in the state and at the event of that reason; a join request without a key never is one |
| `JoinstrLaws.AmbiguousInputsArrive` | rust/joinstr/src/joinstr/mod.rs:723-752 | messages can deliver inputs whose finalization depends on their order: two claims of 2^63 and a PSBT |
| `JoinstrCourse.EveryCourseHalts` | rust/joinstr/src/joinstr/mod.rs:550-755 | every run ends, whatever is received: the rounds follow each other, and in each the time left and the messages waiting decrease lexicographically |
| `JoinstrCourse.WorldFeeds` | rust/joinstr/src/joinstr/mod.rs:550-755 | a message queue and a clock keep the discipline that this needs |
| `JoinstrCourse.EveryRunHalts` | rust/joinstr/src/joinstr/mod.rs:550-755 | hence every run with a queue and a clock ends |
| `JoinstrCourse.EachMessageTakenOnce` | rust/joinstr/src/joinstr/mod.rs:550-755 | every message that arrives is taken exactly once, in order, or still waits |
| `PoolNetwork.NetStepOk` | rust/joinstr/src/joinstr/mod.rs:513-761 | every possible event keeps all participants' invariants relative to everything ever posted |
| `PoolNetwork.TemplateCoversAll` | rust/joinstr/src/joinstr/mod.rs:659-672 | if no more addresses are ever posted than the pool has peers, a frozen template pays all of them |
| `PoolNetwork.InputsCoverAll` | rust/joinstr/src/joinstr/mod.rs:1468-1479 | if no more inputs are ever posted either, a completed transaction spends all of them |
| `PoolNetwork.SameTemplate` | rust/joinstr/src/joinstr/mod.rs:1487-1493 | then any two participants that have frozen a template have frozen the same one |
| `PoolNetwork.IncreasingUnique` | rust/joinstr/src/coinjoin/mod.rs:311-323 | inputs in strictly increasing order are determined by their set |
| `PoolNetwork.Agreement` | rust/joinstr/src/joinstr/mod.rs:513-761 | in every run, under reordering, repetition, loss and outsiders, all who finish hold the identical transaction |
| `PoolNetwork.SentInputsAreSpent` | rust/joinstr/src/joinstr/mod.rs:1397-1427 | under the same conditions every signed input that anyone sent is spent, with a valid signature, by the transaction of everyone who finishes |
| `PoolReached.TwoParticipantsAgree` | rust/joinstr/src/joinstr/mod.rs:850-927 | a whole possible run within these bounds: two participants with different addresses and a coin each finish with the same transaction, which spends both coins validly |
| `PoolTightness.OneAddressTooMany` | rust/joinstr/src/joinstr/mod.rs:659-672 | the bound is tight: with one address more than peers, and one input, two participants finish with different transactions |
| `ElectrumResponse.ParseBatch` | rust/simple_electrum_client/src/electrum/response.rs:90-169 | an answer is read as the kind its indexed request expects and keeps its id; one unreadable answer spoils the batch |
| `ElectrumResponse.ReplyReads` | rust/simple_electrum_client/src/electrum/response.rs:90-169 | a reply keeps its content: which content each kind of request reads as which answer, and that all other is unreadable |
| `ElectrumListener.DisciplinedAppend` | rust/joinstr/src/electrum.rs:253-255 | sending only when nothing is in flight, or what is in flight, keeps the discipline |
| `ElectrumListener.NextBatchAfterFullAnswer` | rust/joinstr/src/electrum.rs:244-388 | between two different batches sent one after the other, a single server message answered every request of the first |
| `ElectrumListener.RegisteredKeepsTables` | rust/joinstr/src/electrum.rs:262-332 | registering any request keeps the four tables consistent, even when ids wrap around |
| `ElectrumListener.TablesAfterFacts` | rust/joinstr/src/electrum.rs:395-423 | taking answers keeps them consistent and records exactly the history ids answered |
| `ElectrumListener.FatalIff` | rust/joinstr/src/electrum.rs:395-435 | exactly which answers panic: a second history for one request, a notification for an unknown script, a transaction that does not decode; never a subscribe answer |
| `ElectrumListener.StatusesAttributed` | rust/joinstr/src/electrum.rs:395-409 | each reported status is the latest one received about the script it is reported for |
| `ElectrumListener.StatusesComplete` | rust/joinstr/src/electrum.rs:395-409 | no status about a known script is left out |
| `ElectrumListener.HistoriesAttributed` | rust/joinstr/src/electrum.rs:410-423 | each reported history answers a request about that very script |
| `ElectrumReports.HistoriesComplete` | rust/joinstr/src/electrum.rs:410-423 | every history for a request still waiting is gathered for its script |
| `ElectrumReports.TxsGathered` | rust/joinstr/src/electrum.rs:424-431 | exactly the transactions that decode are gathered |
| `ElectrumReports.HeightsAre` | rust/joinstr/src/electrum.rs:410-423 | a height below one means an unconfirmed transaction; any other is reported |
| `ElectrumReports.StatusesAre` | rust/joinstr/src/electrum.rs:395-409 | which script hash a status is about, and that the status is the one the answer carries |
| `ElectrumReports.ToldExactly` | rust/joinstr/src/electrum.rs:432-461 | all that a readable message tells: one error per error answer, then the histories, the statuses and the transactions gathered, each whole and once if there are any, and nothing else |
| `ElectrumReports.StatusesReachConsumer` | rust/joinstr/src/electrum.rs:395-461 | over any run of passes, each status heard about a known script is in something delivered, unless a later answer of the same message brings a newer one, which then is |
| `ElectrumReports.TxsReachConsumer` | rust/joinstr/src/electrum.rs:424-461 | over any run, each transaction that decodes is delivered |
| `ElectrumReports.HistoriesReachConsumer` | rust/joinstr/src/electrum.rs:410-461 | over any run, each history for a request still waiting is delivered for its script |
| `ElectrumReports.BatchShape` | rust/joinstr/src/electrum.rs:257-357 | one request per script or txid asked for, in order, under consecutive ids |
| `ElectrumReports.FlightAfter` | rust/joinstr/src/electrum.rs:374-388 | a message ends the flight exactly if it answers every id of the batch; otherwise the whole batch goes out again |
| `ElectrumReports.PassReturnsIff` | rust/joinstr/src/electrum.rs:249-479 | exactly when a pass ends the loop without a panic: a stop, a consumer that hung up, or one that is not there for an error |
| `ElectrumRuns.RunPanicsIff` | rust/joinstr/src/electrum.rs:249-479 | a run of any number of passes panics exactly if it reaches a pass in which the consumer is missed, a resend fails, an answer is fatal, or a report finds nobody |
| `ElectrumRuns.AnsweredWasHeard` | rust/joinstr/src/electrum.rs:410-423 | along every run a history request counts as answered only if a history for it was heard |
| `ElectrumRuns.BenignRunGoesOn` | rust/joinstr/src/electrum.rs:249-479 | one history per request, notifications about subscribed scripts and transactions that decode keep a run going; no subscribe answer ever stops it |
| `ElectrumRuns.PartialAnswerThenPanic` | rust/joinstr/src/electrum.rs:375-423 | two passes: one of two history requests in flight is answered, the batch is sent again, and the full answer that follows panics |
| `ElectrumListener.Listener.Register` | rust/joinstr/src/electrum.rs:208-218 | the next id, wrapping around, is given out and indexed |
| `ElectrumListener.Listener.SubscribeBatch` | rust/joinstr/src/electrum.rs:264-275 | one subscription per script under consecutive ids, all tables filled |
| `ElectrumListener.Listener.HistoryBatch` | rust/joinstr/src/electrum.rs:294-305 | one history request per script under consecutive ids, each id tied to its script |
| `ElectrumListener.Listener.TxBatch` | rust/joinstr/src/electrum.rs:324-332 | one transaction request per txid under consecutive ids |
| `ElectrumListener.Listener.RetrySend` | rust/joinstr/src/electrum.rs:281-292 | failures are reported from the eleventh on, and a consumer that is gone ends it |
| `ElectrumListener.Listener.HandleRequest` | rust/joinstr/src/electrum.rs:257-357 | which batch is sent for a request, what is registered and reported, and when the loop ends here |
| `ElectrumListener.Listener.PollRequest` | rust/joinstr/src/electrum.rs:256-370 | a request is taken up only when no batch is in flight |
| `ElectrumListener.Listener.Settle` | rust/joinstr/src/electrum.rs:374-388 | a full answer clears the batch in flight, any other message makes it be sent again; panics exactly if that fails |
| `ElectrumListener.Listener.TakeResponses` | rust/joinstr/src/electrum.rs:391-447 | the first answer that ends the loop decides how it ends; otherwise the gathered reports |
| `ElectrumListener.Listener.PollServer` | rust/joinstr/src/electrum.rs:372-474 | for any message of the server: how the pass ends, what is taken and resent, and that the consumer is told what `ElectrumReports.ToldExactly` says |
| `ElectrumListener.Listener.Pass` | rust/joinstr/src/electrum.rs:249-479 | how one pass ends, and its whole effect on tables, flight, wire and reports, from the state before it; a request to stop is acknowledged |
| `ElectrumListener.Listener.Listen` | rust/joinstr/src/electrum.rs:249-479 | how any number of passes end and what they leave, and exactly what was sent and delivered on the way; the sends stay disciplined and the tables consistent |
| `ElectrumClient.FirstTxDecides` | rust/joinstr/src/electrum.rs:504-533 | the first answer with the request's id decides; without one the response is wrong |
| `ElectrumClient.FirstHistoryDecides` | rust/joinstr/src/electrum.rs:593-603 | the same for a history |
| `ElectrumClient.AskedOutcome` | rust/joinstr/src/electrum.rs:492-503 | an exchange succeeds exactly if the request was sent and every answer was readable with it in the index |
| `ElectrumClient.GotOutcome` | rust/joinstr/src/electrum.rs:491-534 | exactly how a transaction request turns out |
| `ElectrumClient.ListedOutcome` | rust/joinstr/src/electrum.rs:580-603 | exactly how a history request turns out, and that it asks for the hash of the script |
| `ElectrumClient.FetchedEach` | rust/joinstr/src/electrum.rs:556-569 | each transaction is the outcome of its own exchange, in order; the first failure is the failure of all |
| `ElectrumClient.CollectedLast` | rust/joinstr/src/electrum.rs:568 | the map returned holds for each listed txid the transaction fetched last for it |
| `ElectrumClient.CoinsInOrder` | rust/joinstr/src/electrum.rs:558-566 | the coins found in one transaction come in output order, none twice |
| `ElectrumClient.DiscoveryExact` | rust/joinstr/src/electrum.rs:549-570 | exactly the outputs of the fetched transactions that pay to the script are found |
| `ElectrumClient.DiscoveredPay` | rust/joinstr/src/electrum.rs:559 | whatever a search finds is locked to the script |
| `ElectrumClient.IndexRestoredIff` | rust/joinstr/src/electrum.rs:491-603 | coin discovery leaves the index as it was, on every path, exactly if no id it sends under was registered before |
| `ElectrumClient.Client.Ask` | rust/joinstr/src/electrum.rs:492-503 | one exchange: the request is indexed while its answer is read, and forgotten on every path after sending |
| `ElectrumClient.Client.GetTx` | rust/joinstr/src/electrum.rs:491-534 | the transaction the deciding answer encodes, or which error |
| `ElectrumClient.Client.GetCoinsTxAt` | rust/joinstr/src/electrum.rs:580-603 | the txids of the deciding history answer, or which error |
| `ElectrumClient.Client.FetchCoins` | rust/joinstr/src/electrum.rs:556-569 | each transaction of the history is fetched in order, its coins collected; the first failure ends it |
| `ElectrumClient.Client.GetCoinsAt` | rust/joinstr/src/electrum.rs:549-570 | history first, then its transactions |
| `HotSigner.PushedHolds` | rust/joinstr/src/signer/mod.rs:233-237 | adding a coin adds it once to what the store lists |
| `HotSigner.ListedCoinSigns` | rust/joinstr/src/signer/mod.rs:293-349 | a listed coin is never refused by the script checks of signing if private and public derivation agree at its path |
| `HotSigner.SearchedCoins` | rust/joinstr/src/signer/mod.rs:219-245 | each coin of a successful search names an output of a transaction of the history, with its value and script, under its own path and the replaceable sequence |
| `HotSigner.HotSigner.GetCoinsAt` | rust/joinstr/src/signer/mod.rs:219-245 | a failing search leaves the store alone; a successful one adds everything it found and returns its number |
| `HotSigner.HotSigner.ListCoins` | rust/joinstr/src/signer/mod.rs:251-264 | the listing is the multiset union of all that successful searches found, each coin under its own path and script |

## Left out

- RetrySend: a send that fails forever is not modelled, because the loop then never returns; any finite number of failures is.
- Fee rates above 2^53 satoshis per weight unit, while pools carry rates of 32 bits; the integer forms of the fee laws also leave out transactions of more than 2^53 weight units.
- Agreement when more addresses or inputs are posted than the pool has peers: it fails (`OneAddressTooMany`), and no weaker bound is given.
- Own inputs in general: a participant adds its own input to its builder only when the relay echoes it, so nothing is claimed about an own input that never comes back.
- The text order of txids in BIP 69: txids are numbers here, and only their strict total order matters.
- Connecting to the relay, fetching its address and keys, random delays, notifications and the thread wrapper around a run; a send or a broadcast is a success flag.
- Unchecked 64-bit additions panic in the model, as in a build with overflow checks; a release build wraps around for the deadline and for the sum of output values.
- Sorting is a stable sort on values; the library's in-place algorithm is not modelled.
- Cryptography: keys, hashes and signatures are arbitrary functions; a digest is the data it commits to. Derivation paths with hardened steps panic, as the descriptor library does.
- JSON text, consensus and hex encoding: each decoder is assumed to undo its encoder.
- Direct messages are messages of the one mailbox; encryption and addressing of messages are not modelled, so any participant may read any message.
- Restarting a saved run, and the steps `InputRegistration` and `Mined`, which no code ever sets.
- Threads and the mutex around the participant's fields; status and state export.
- The signer's setters for its electrum client: the client is fixed when the signer is made. Creating signers from seeds is not modelled.
- `get_tx` does not check that a returned transaction has the requested id; discovery is exact relative to what the server returned.
- The synchronous broadcast of the electrum client, and response kinds other than subscribe, history, transaction, error and notification.
- Pool announcements and their JSON form, and the transport settings inside them.
