# Koinonia: additively shared, homomorphically tallied voting

Koinonia has an authority that sets up elections, a bulletin board (ESP) that collects ballots, and tellers. A voter's
client splits every 0/1 choice into one share per teller, commits to each share as `x g + y h` in a prime-order group of
curve points, and proves that every candidate's sum and every position's sum is 0 or 1. Tellers check their shares and sign
the commitments; the board checks signatures and proofs. After the election each teller adds up its shares, the board checks
every total against the product of that teller's commitments and publishes the sum, and anyone can check the dump offline.

This project models that system in Dafny and proves what it is for.

- `ModArith`, `Groups`, `Native`: numbers modulo m (up to Fermat's little theorem, on which the square root by power
  stands), the group with its two generators, sums over ballots and tellers in either order, and the mutable number and
  point wrappers.
- `Proof01`, `Ballots`, `ShareGeneration`, `HonestVote`, `VoteServers`, `VoteTheorems`: the 0/1 proof, the wire format, the
  client's share loops over shared mutable objects, the checks of teller and board, completeness and soundness of votes.
- `Tally`, `TellerTally`, `BoardTally`, `TallyTheorems`: the tellers' transactional tally, the board's verdict and
  publication, and the theorems from the voters' choices to the published numbers.
- `WholeElection`: clients, tellers and board run together, from the choices to the published numbers.
- `TallySoundness`: what numbers at a place mean that open the product of accepted votes there, whoever made the votes and
  the totals.
- `EntryOrder`, `EntryExamples`: what a tally by index makes of votes whose entries are out of order or repeated.
- `Authenticity`, `SignedTexts`: that what servers keep, and what stands behind a verifier's success, was issued or signed by
  those whose it is, and that the signed texts change with each of their fields.
- `OfflineVerify`: the parallel verifier, one master and any number of workers, on any record. `VerifiedElection`: the
  verifier after an election, and what its success says about the labels of the record.
- `ElectionInfo`, `Remotes`, `Authority`, `Lifecycle`, `LifecycleTheorems`, `LifecycleAttempts`, `LifecycleHarms`: freezing,
  opening and closing an election across servers that may miss, repeat or delay requests. `ForeignMessages`: what servers
  hold when anybody sends them anything.
- `Compression`, `Jacobian`, `CurveGroup`, `WindowMult`: point compression, Jacobian addition, windowed multiplication.
- `CreateElection`, `Layout`, `LineReader`, `Paging`: accepted elections and the grid built from them, the chunked line
  reader, the paged dump.
- `SmallCurve`: a five-point curve that meets every law the other modules assume (`FiveCurveValid`, `FiveWorldValid`), so
  that the theorems are not about nothing; only the size of the order that `WindowMult` asks for is that of the library's
  curves. `Examples`, and `LifecycleHarms` for the lifecycle, hold inputs on which the code goes wrong. `Wrappers` has the
  type of a value that may be absent.

Coins, clocks and the hash are arbitrary inputs. Encodings, signatures, the joining of texts and the rendering of numbers are
functions of which only the laws in `World.Valid` are known. A transaction commits or leaves everything as it was.

What the proofs found out about the code:

- A chosen candidate id below zero breaks the client: it looks the id up among the candidates but reads off its sign whether
  anything was chosen, and the position proof then fails (`BallotCompleteness` has the exact condition, `NegativeChoice` an
  accepted election where it happens).
- Position ids of mixed sign are accepted, but the client then orders the positions differently from the servers
  (`LayoutAgreement` has the exact condition, `MixedIsAccepted` an election).
- The authority records a teller whose registration was still under way without asking again whether the list is open.
  Recorded after the opening, or during the attempt that opens, it leaves the authority ahead of a listed teller, exactly
  then (`LifecycleSafety`, with `LateRegistration` as an example), and the election can no longer be closed (`ClosesIff`).
  Recorded before, it makes the list outgrow its signature, and well-formed requests are refused: an attempt can open the
  election exactly if its format is right and the list still has the text that was signed (`OpensIff`, `LateRefusal`). The
  missing guard would rule out both (`GuardSuffices`).
- A first attempt to open an election whose clock reads no later than the freezing time fixes an opening time that every
  server refuses for ever (`StuckForever`, and `StuckReached` for a run from the start).
- The board's check of a vote does not see the order of its entries, nor whether one comes twice, while the final tally
  multiplies by place and the tellers add by index. A teller's tally goes through exactly if no vote carries one signature
  twice under its index and every named vote is stored (`ReadsIff`): one vote with the first teller's entry in all places is
  accepted, and blocks that teller for ever (`RepeatedBlocks`). An honest total passes exactly if the shares by index and
  those by place have the same sums, or a relation results (`TotalByIndex`, `TallyVotes`), which never fails with the entries
  in order, and does for one accepted vote with two entries exchanged (`ExchangedFails`).
- `addJac` throws exactly when a point with z other than 1 is added to itself or its inverse, since that branch names an
  undefined variable (`AddJac`, `AdditionThrows`). On the library's curves the tables of multiples never meet that
  (`Multiples`), while `multJac2` can: it throws on 2 P + 2 P unless the z of the double happens to be 1 (`TwiceTwice`;
  `MultJac2` has the exact condition).
- The line reader turns a CR LF that a read cuts in two into an extra empty line, and is right otherwise (`ReadAll`). With
  reads that fill the buffer this happens exactly if a CR LF stands across a multiple of its 65536 bytes (`FullReadsCut`,
  `CutExample`).
- The offline verifier reads neither the ids nor the shape of the published record. It reports success on a record without
  entries (`VerifyNothing`), and, after any election, on the one in which two candidates have each other's numbers
  (`RelabelledVerifies`). Where no two candidates have the same product, its success means that everyone has the own number
  exactly if the record has the election's ids in order (`TruthfulInOrder`; `TruthfulIff` is the condition in general). A
  place of the record that a ballot lacks ends it with an exception (`Master.OnVerdict`).
- The state number in a request to open is neither signed nor checked, and the server takes it over as its own state
  (`StateTakenOver`). Everything else that a server ever holds is signed by the authority, whatever it is sent (`RunSigned`).
- Decompression gives the modulus instead of 0 where 0 is the only root and an odd one is asked for (`DecompressKinds`).
- A total submitted under an index without a teller fails with code -1 instead of the intended -2 (`Board.Submit`).

## Model
| member | source | states |
|---|---|---|
| Native.BN.ModSubM | native/BN.cc:95-101 | in-place subtraction modulo m ends non-negative whatever the signs |
| Native.BN.AddM | native/BN.cc:47-53 | in-place addition, also of an object to itself |
| Native.Point.AddMPoint | native/POINT.cc:44-53 | in-place addition of points, also of an object to itself |
| Groups.Binding | native/Elliptic.cc:90-105 | two openings of one commitment agree modulo the order in both numbers, or give a non-trivial linear relation between the generators |
| Groups.SumExchange | src/esp/finallyTallying.js:84-92 | the double product over ballots and tellers is the same taken by rows or by columns |
| Proof01.VerifyProof01 | native/Elliptic.cc:112-161 | the verifier, which overwrites the challenge it is given, accepts exactly when the challenge splits and both announcements answer |
| Proof01.Prove | native/Elliptic.cc:296-363 | for all coins and every hash, a proof for a commitment that opens to the bit is accepted; one made for the other bit is accepted exactly when the answered challenge half kills g |
| Proof01.ExtractionSound | native/Elliptic.cc:112-161 | two accepted answers to one announcement with different challenges yield a bit and a blinding that open the commitment |
| ShareGeneration.NewShare | src/autoscript/autovote.js:426-450 | the share is the coin, or for the last teller the bit minus the running sum modulo the order; the emitted numbers open the emitted commitment |
| ShareGeneration.AddToSums | src/autoscript/autovote.js:452-468 | whether the sums are undefined, alias the first teller's objects or are already mutated, they come to stand for the old value plus the cell |
| ShareGeneration.ShareRow | src/autoscript/autovote.js:422-469 | the aliasing objects of one position stay separate, and every cell moves its own sums only |
| ShareGeneration.ShareTeller | src/autoscript/autovote.js:412-475 | one teller's commitments over the whole grid, with all sums updated in place and nothing else on the heap |
| HonestVote.GenerateShares | src/autoscript/autovote.js:404-475 | heap invariant of the share loops: emitted shares open their own commitments, are the coins but for the last, and add up to the choice bit, while the mutated sums stand for exactly these cells |
| HonestVote.ProvePosition | src/autoscript/autovote.js:477-503 | one accepted proof per candidate; the position's proof accepted exactly if the choice makes sense or the challenge is degenerate |
| HonestVote.GenerateVote | src/autoscript/autovote.js:397-510 | the whole client vote: shares that open and add up, made of the coins drawn, with proofs, for any number of tellers from 1 on and all coins |
| VoteServers.SameStr | src/teller/saveVote.js:31-116 | the text the teller signs is the one the board rebuilds after x and y were deleted |
| VoteServers.TellerVerify | src/teller/saveVote.js:20-126 | accepts exactly the commitments with the election's layout whose every cell opens, keeps exactly their shares and signs exactly their text |
| VoteServers.CheckProofs | src/esp/saveVote.js:161-219 | with the running position product added to after each candidate's proof, accepts exactly when all candidates and their sum are proved |
| VoteServers.VerifyBallot | src/esp/saveVote.js:19-219 | the nested loops accept exactly the votes with right link, one well-formed signed part per teller and all positions proved |
| VoteTheorems.BallotCompleteness | src/autoscript/autovote.js:183-207 | every teller accepts what the client sends, and the board accepts the vote exactly when each position's choice is sensible, short of a degenerate challenge |
| VoteTheorems.PositionSound | src/esp/saveVote.js:161-219 | from second answers to all proofs of a position, bits are computed that add up to the position's bit, so at most one candidate is chosen, or a relation between g and h |
| VoteTheorems.AcceptedVoteSound | src/esp/saveVote.js:161-219 | the same for every position of every vote the board accepted, against the challenges it computed |
| Tally.TallyBinding | src/esp/finallyTallying.js:198-212 | a total that passes is congruent to the sum of the shares behind the commitments, or gives a relation |
| Tally.PublishedPasses | src/esp/finallyTallying.js:94-145 | totals that pass one by one pass together after summing and reducing |
| Tally.Conservation | src/teller/electionTallying.js:92-165 | shares that add up to bits modulo the order, totalled per teller, reduced and added, give exactly the number of ones if there are fewer ballots than the order |
| TellerTally.MarkOne | src/teller/electionTallying.js:113-131 | adding one row's data and marking it keeps the accumulator equal to the sums over exactly the marked rows |
| TellerTally.PickOne | src/teller/electionTallying.js:113-131 | the guarded query finds a row exactly when the file names a stored vote it has not named before |
| TellerTally.SumFile | src/teller/electionTallying.js:92-139 | the read loop succeeds exactly on readable files that name only stored votes, none twice, and then has summed exactly those |
| TellerTally.TellerDb.SaveVote | src/teller/saveVote.js:128-213 | a row is inserted exactly while open, for an accepted vote whose key is new; every row stands for commitments that were checked and signed |
| TellerTally.TellerDb.SaveReceipt | src/teller/saveReceipt.js:30-109 | a receipt is stored exactly while open, once, later than the vote and with the board's signature over that vote |
| TellerTally.TellerDb.Tally | src/teller/electionTallying.js:52-182 | commits exactly when closed, the file reads, no receipted vote is missing and the database commits; the total is then over exactly the marked rows, and an abort changes nothing |
| TellerTally.TallyAttempts | src/teller/electionTallying.js:70-189 | over any sequence of attempts there is one total, returned by every later attempt, and rows change at most once |
| BoardTally.Board.Submit | src/esp/submitTellerResult.js:28-161 | a total is stored exactly once per teller, closed and unpublished, with the right layout and signature; idempotent replies change nothing; -4, -1 and -2 come exactly when the election is not closed, the index has no teller, and the total does not fit |
| BoardTally.StoredTotalSubmits | src/teller/electionTallying.js:153-169 | what a teller's tally stored has the layout and the signature the board asks for |
| BoardTally.MultFile | src/esp/finallyTallying.js:84-92 | after the read loop each teller's cell holds the product of its factors over all lines; it fails exactly on a line that cannot be read or lacks a cell |
| BoardTally.VerifyResult | src/esp/finallyTallying.js:198-212 | true exactly when every cell of the total opens its product |
| BoardTally.Board.Judge | src/esp/finallyTallying.js:94-128 | keeps exactly the totals that pass and drops the others; the sum is over all of them if all pass |
| BoardTally.Board.FinalTally | src/esp/finallyTallying.js:27-149 | publishes exactly when all totals are there and pass; rejects by deleting exactly those that do not; anything else leaves the table as it was |
| TellerTally.ReadsEveryLine | src/teller/electionTallying.js:92-139 | a file that reads has no line that is not a ballot, and no entry of this teller without a signature or without its vote |
| TallyTheorems.MarkedTotals | src/teller/electionTallying.js:92-139 | the sum over the marked rows of the table is the sum over the votes in file order |
| TallyTheorems.TallyCounts | src/teller/electionTallying.js:92-165 | a committed total counts exactly the votes the file names |
| TallyTheorems.AcceptedOpens | src/teller/saveVote.js:97-109 | ballots that carry the commitments a teller accepted open to the shares it kept |
| TallyTheorems.TotalBound | src/esp/finallyTallying.js:84-108 | a total that passes equals, in every cell modulo the order, the shares that teller accepted, or gives a relation |
| TallyTheorems.HonestTotalPasses | src/esp/finallyTallying.js:198-212 | the reduced total of the accepted shares passes |
| TallyTheorems.PublicationVerifies | src/esp/finallyTallying.js:84-145 | if every teller's total passes, the published pairs open the product of all commitments of the same file |
| TallyTheorems.EndToEnd | src/autoscript/autovote.js:412-475 | the published number of every candidate of every position is the number of voters who chose it, for every layout, any number of tellers, all coins and fewer votes than the order |
| TallyTheorems.HonestElectionPublishes | src/esp/finallyTallying.js:94-145 | with honest clients and tellers every total passes against the dump of their votes |
| WholeElection.SaveAtAll | src/autoscript/autovote.js:190-194 | every teller accepts, keeps and signs its part of a client's vote, and the signed parts make the vote the board is sent |
| WholeElection.CastVote | src/autoscript/autovote.js:183-195 | after the tellers, the board accepts every vote whose choices make sense, and stores exactly the accepted ones, once |
| WholeElection.DumpPlaces | src/esp/dumpVotes.js:30-74 | the dump names every accepted vote once, whatever its order |
| WholeElection.TallyOne | src/teller/electionTallying.js:70-182 | on the dump a teller's tally goes through, over exactly the shares it kept of the dumped votes, with a signature the board accepts |
| WholeElection.Publish | src/esp/finallyTallying.js:27-149 | every total is taken and passes, and what is published counts the choices behind the dump |
| WholeElection.Election | src/autoscript/autovote.js:183-195 | the whole run, for all layouts, voters, coins and any number of tellers: sensible votes are accepted, and each published number is the number of voters whose vote was accepted and who chose that candidate |
| TallySoundness.PublishedSound | src/esp/finallyTallying.js:198-212 | a pair that opens the product of accepted votes at a place, to whose proofs there are second answers, is the number of ones behind them, at most one for each position, or gives a relation; clients and tellers need not be honest |
| Authenticity.AcceptedEligible | src/common/util.js:332-352 | if only the authority can sign links, every vote that a teller or the board accepts carries a link it has issued, linked later than registered |
| Authenticity.RowsEligible | src/teller/saveVote.js:128-213 | and so does every row of a teller's table, in the teller's own election |
| Authenticity.RowsSigned | src/teller/saveVote.js:88-126 | every row stands for commitments of the election's shape that open to the shares kept and that the teller has signed |
| Authenticity.TotalComplete | src/teller/electionTallying.js:141-178 | a stored total is signed by the teller after closing, and counts every vote with a receipt |
| Authenticity.IssuedLinkServes | src/common/util.js:332-352 | with a link the authority has signed, every vote of the client is accepted by all tellers, and by the board exactly if its choices make sense, short of a degenerate challenge |
| Authenticity.LinesEligible | src/common/offlineVerify.js:124-130 | and every line behind a verifier's success, in the election verified, whatever id the line gives |
| Authenticity.BallotBox.SaveVote | src/esp/saveVote.js:237-329 | the board checks a vote under its own election's id, keeps it exactly while open, if accepted, and once for each rid, and signs a receipt over link and time |
| Authenticity.BallotsEligible | src/esp/saveVote.js:237-329 | whatever was sent, the board's ballots are eligible voters', of its own election, one for each rid |
| Authenticity.EntriesSigned | src/esp/saveVote.js:47-146 | every entry of an accepted vote lists the election's positions and candidates in order and was signed, over this voter's link, by the teller that it names |
| Authenticity.TotalsSigned | src/esp/submitTellerResult.js:28-161 | every total at the board has the election's shape and was signed by its own teller |
| Authenticity.ReceiptsSigned | src/teller/saveReceipt.js:30-109 | every receipt that a teller keeps was signed by the board for that vote, later than it was cast |
| Authenticity.ReceiptArrives | src/teller/saveReceipt.js:30-109 | the receipt that the board signs for a vote is taken by every teller with this voter's part of it |
| SignedTexts.LinkFieldsRead | src/common/util.js:346 | where joining loses nothing, the text of a link changes with every single field |
| SignedTexts.CommitRead | src/esp/saveVote.js:30-143 | what a teller signs changes with the time, the link and its signature, and every position's id, candidate's id and commitment |
| SignedTexts.ReceiptRead | src/esp/saveVote.js:223-225 | the board's receipt changes with the link, its signature and the time |
| SignedTexts.CountRead | src/teller/electionTallying.js:152-169 | what a teller signs under its totals changes with the election, the time, and every id and number |
| SignedTexts.InfoRead | src/common/util.js:136-177 | the frozen election's text changes with its head and with the text of every candidate, position and pair |
| SignedTexts.CandRead | src/common/util.js:145-154 | a candidate's text changes with every single field |
| SignedTexts.PosEntryRead | src/common/util.js:156-165 | and so does a position's |
| SignedTexts.MappingRead | src/common/util.js:167-174 | and a pair's |
| SignedTexts.HeadRead | src/common/util.js:137-143 | and the head, which carries the state given |
| SignedTexts.TellerRead | src/common/util.js:302-315 | and a teller's |
| SignedTexts.OpenCloseRead | src/common/util.js:242-276 | the texts of opening and closing change with every field of their own |
| SignedTexts.TellerListRead | src/common/util.js:302-315 | the text of the list of tellers changes with the text of every one |
| SignedTexts.CommitTexts | src/esp/saveVote.js:30-143 | the whole text under an example's commitments, field by field in order |
| SignedTexts.LinkTexts | src/common/util.js:346 | the whole text of an example's link, and of the receipt for it |
| SignedTexts.CountTexts | src/teller/electionTallying.js:152-169 | the whole text under an example's total |
| SignedTexts.FrozenTexts | src/common/util.js:136-177 | the whole text of an example's frozen election |
| SignedTexts.AttemptTexts | src/common/util.js:242-315 | the whole texts of opening and closing it, and of its tellers |
| EntryOrder.OrderUnseen | src/esp/saveVote.js:58-60 | a vote with two entries exchanged is accepted like the vote itself |
| EntryOrder.ReadsIff | src/teller/electionTallying.js:92-139 | a teller's tally reads the file exactly if every vote that an entry with its index names is stored, and no vote carries one signature twice under that index |
| EntryOrder.RepeatBlocks | src/teller/electionTallying.js:109-131 | with such a repetition the file is unreadable whatever the teller stores |
| EntryOrder.TotalByIndex | src/esp/finallyTallying.js:84-92 | of votes with honestly signed entries, the total over the entries with index i passes against the entries at place i exactly if in every cell the stored shares of the two lists have the same sums, or a relation results |
| EntryOrder.TallyVotes | src/teller/electionTallying.js:52-182 | the same for the tally as it runs: it goes through exactly without a repetition and with every receipted vote named, and with all entries in order it reads the file and its total passes |
| EntryOrder.ElectionBacked | src/autoscript/autovote.js:190-194 | the dump of client votes is such a file, in order |
| EntryExamples.RepeatedAccepted | src/esp/saveVote.js:58-60 | for any layout and number of tellers, the first teller signs zero shares and the board accepts a vote with that entry in all places |
| EntryExamples.RepeatedBlocks | src/teller/electionTallying.js:109-131 | that teller's tally fails on every file with this vote, however often it is started |
| EntryExamples.ExchangedFails | src/esp/finallyTallying.js:84-108 | two tellers sign their parts of a vote, the board accepts them exchanged, and the first teller's total fails unless g is zero |
| OfflineVerify.MovedLinked | src/common/offlineVerify.js:63-109 | workers coming online, reaching verdicts, finishing and dying keep lines, phases and counters in agreement and leave less to do |
| OfflineVerify.JudgedLinked | src/common/offlineVerify.js:76-88 | a verdict merges its line once or leaves it refused with its worker |
| OfflineVerify.Settled | src/common/offlineVerify.js:66-73 | when nothing can move and no worker has died, all have finished exactly if no line was wrong |
| OfflineVerify.MergeLine | src/common/offlineVerify.js:83-85 | merging lines in any order fills each one's place in the products, at the places of the record |
| OfflineVerify.VerifySummation | src/common/offlineVerify.js:172-187 | true exactly when every pair of the record, of whatever shape, opens the point beside it |
| OfflineVerify.Master.ProcessBallot | src/common/offlineVerify.js:118-139 | hands out the next line, or shuts the worker down at the end; at a line that is no ballot the worker gets nothing and never will |
| OfflineVerify.Master.OnOnline | src/common/offlineVerify.js:100-108 | the last worker to come online sets the work going; the loop stops at the first line that is no ballot |
| OfflineVerify.Master.OnVerdict | src/common/offlineVerify.js:76-88 | merges a correct ballot and serves its worker, leaves a wrong one with its worker and ends the work; an exception ends the master exactly at a correct ballot that lacks a place of the record; otherwise it makes one move of the protocol, keeps the invariant and decreases the measure |
| OfflineVerify.Master.OnFinished | src/common/offlineVerify.js:66-73 | the pairs of the record, whatever its shape and labels, are checked when the last worker has finished, and only then can success be set |
| OfflineVerify.Master.WorkerVerifies | src/common/offlineVerify.js:141-157 | a worker's verdict is the board's own check of the ballot it was handed |
| OfflineVerify.Master.Run | src/common/offlineVerify.js:46-158 | every schedule of messages and deaths comes to an end |
| OfflineVerify.Master.SuccessMeans | src/common/offlineVerify.js:66-73 | success implies that every line was read, accepted and merged once, and that every pair of the record opens the whole file at its place |
| OfflineVerify.Master.SuccessIsEligible | src/common/offlineVerify.js:124-130 | behind a success every line's link is signed by the authority under the id of the election verified, and linked later than registered |
| OfflineVerify.Master.LineIdsUnread | src/common/offlineVerify.js:124-130 | on files that differ only in the ids their lines give, the same ballots are right and finished runs have the same outcome |
| OfflineVerify.Master.OneWrongLine | src/common/offlineVerify.js:76-79 | one line that is no ballot, or one ballot that is refused or lacks a place of the record, rules success out in every state |
| OfflineVerify.Master.RunOutcome | src/common/offlineVerify.js:46-158 | on any record, a run that ended without a death succeeded exactly if all ballots are right, none lacks a place of the record, and every pair opens the product at its place |
| OfflineVerify.Master.PublicationConfirmed | src/common/offlineVerify.js:172-187 | numbers the board published from these ballots are the right ones for the verifier, and no ballot lacks a place of them |
| TallySoundness.SuccessIsSound | src/common/offlineVerify.js:66-73 | if the verifier reports success on a file shorter than the order, each number below the order that the record has at a place of the election, under whatever label, is the number of ones at that place, or a relation results |
| VerifiedElection.TruthfulIff | src/common/offlineVerify.js:172-187 | after a success every candidate's number in the record opens the own product exactly if everyone is named and every label stands at a place with the same product |
| VerifiedElection.TruthfulInOrder | src/common/offlineVerify.js:36-38 | where the products differ, exactly if the record has the election's ids in order |
| VerifiedElection.Verify | src/common/offlineVerify.js:46-158 | on the dump of an election, with any ids in its lines, and any record, the verifier reports success exactly if every pair opens the product at its place and no ballot lacks a place |
| VerifiedElection.VerifyNothing | src/common/offlineVerify.js:172-187 | it reports success on a record without entries, whatever was voted |
| VerifiedElection.ElectionVerifies | src/common/offlineVerify.js:46-187 | after every election of honest servers it reports success on what was dumped and published |
| VerifiedElection.RelabelledVerifies | src/common/offlineVerify.js:172-187 | after every such election it also reports success on the record with the labels of two candidates exchanged, which gives each the number of the other |
| ElectionInfo.GetElectionInfo | src/common/util.js:80-134 | the copying loops keep the frozen election and nothing else |
| ElectionInfo.GetElectionInfoStr | src/common/util.js:136-177 | the text of the frozen election under a given or its own state number |
| ElectionInfo.CopiesKeepTexts | src/common/util.js:80-276 | the texts read from stored copies are those of the original, in all three phases |
| ElectionInfo.ValidateElectionInfoFormat | src/common/util.js:180-230 | accepts exactly the records whose times and ids fit together |
| Remotes.BoardServer.OpenElection | src/esp/openElection.js:6-114 | the guarded write: opens once, on the authority's three signatures; repeats are answered without change |
| Remotes.BoardServer.CloseElection | src/esp/closeElection.js:6-109 | closes once, on a signature over the board's own copy |
| Remotes.TellerServer.RegisterElection | src/teller/registerElection.js:8-132 | registers a frozen election once, on the authority's signature |
| Remotes.TellerServer.OpenElection | src/teller/openElection.js:5-113 | opens only the election it registered, compared by signature and text |
| Remotes.TellerServer.CloseElection | src/teller/closeElection.js:5-109 | closes once, on a signature over the teller's own copy |
| Remotes.ChangesAreSigned | src/esp/closeElection.js:64-80 | whatever a server is sent, a record that changes carries afterwards the authority's signature over its own text: of the frozen election, of opening and the list of tellers, or of closing |
| ForeignMessages.RunSigned | src/teller/openElection.js:60-96 | over all runs in which anybody sends anything to any server, every record held is signed by the authority for all that has been done to it, and its times are in order |
| ForeignMessages.FormatIsOrder | src/common/util.js:180-259 | the format checks ask exactly for times in order, rows of the election's own, and the fields and signatures of opening |
| ForeignMessages.StateTakenOver | src/common/util.js:80-88 | a request to open is answered alike whatever state number it carries, and leaves the server in that state |
| Authority.KnownByBoth | src/auth/registerTeller.js:43-50 | host and port together tell tellers apart |
| Authority.EmailsAre | src/auth/regVoter.js:28-37 | the addresses registered are the trimmed texts that are not empty and look like one |
| Authority.AuthServer.FreezeElection | src/auth/freezeElection.js:7-57 | from state 0 to 1, signing the text with the freezing time in it |
| Authority.AuthServer.RegVoter | src/auth/regVoter.js:8-109 | while voters are open, inserts exactly the new valid addresses and keeps the count equal to the number of voters |
| Authority.AuthServer.FreezeTellers | src/auth/freezeTellers.js:7-67 | signs the list of tellers once |
| Authority.AuthServer.FinishRegister | src/auth/registerTeller.js:149-174 | records the teller unless it is there, without asking again whether the list is still open |
| Authority.AuthServer.StartOpen | src/auth/openElection.js:83-127 | the request carries the time and signature of the first attempt, if there was one |
| Authority.AuthServer.FinishOpen | src/auth/openElection.js:129-163 | the time and signature are kept whether or not the attempt succeeded everywhere |
| Authority.AuthServer.StartClose | src/auth/closeElection.js:83-116 | the same for closing |
| Authority.AuthServer.FinishClose | src/auth/closeElection.js:119-158 | the same for closing |
| Lifecycle.AnswerOk | src/esp/openElection.js:46-99 | to any of the authority's requests, however late, a server answers 0 only when it is where the request wanted it, holds what that request carried, and never goes back |
| Lifecycle.FinishOpenStep | src/auth/openElection.js:129-147 | partial failure of an attempt to open keeps the invariant, and its retry repeats the very same request |
| Lifecycle.FinishCloseStep | src/auth/closeElection.js:118-136 | the same for closing |
| Lifecycle.StepKeeps | src/auth/openElection.js:112-147 | every step of the system, a late registration included, keeps the invariant and moves no server and not the authority back |
| Lifecycle.AheadIff | src/auth/registerTeller.js:149-155 | in every reachable state the authority is ahead of a listed server exactly if it has opened without asking someone who is on the list now |
| LifecycleTheorems.LifecycleSafety | src/auth/openElection.js:112-147 | over all runs with lost, late and repeated requests: authority open implies everyone on the list open, and closed all closed, at every prefix, exactly if no teller is recorded after the opening or during the attempt that opens |
| LifecycleTheorems.OneOpening | src/auth/openElection.js:112-147 | over all runs no state decreases, and all opened servers hold one opening time, the authority's own once the attempt is over |
| LifecycleTheorems.ReachableIsSigned | src/common/util.js:136-276 | in every reachable state the stored signatures are over the texts the servers rebuild, listed tellers have the election, and a list that has outgrown its signature has a teller on it that nothing sent so far can open |
| LifecycleTheorems.ShutOutStays | src/teller/openElection.js:60-78 | such a teller stays shut out until a list whose text is the signed one is sent to it |
| LifecycleTheorems.GuardSuffices | src/auth/registerTeller.js:149-155 | if tellers were recorded only while the list is open, the authority would never be ahead and the list always the signed one |
| LifecycleAttempts.OpenCompletes | src/auth/openElection.js:112-163 | from every reachable state, however far earlier attempts got and whatever is interleaved, an attempt of the right format with the signed list in which everyone is reached and heard opens the election at the authority and everywhere |
| LifecycleAttempts.OpensIff | src/auth/openElection.js:112-163 | an attempt can open the election exactly if its request has the format the servers ask for and the current list has the text that was signed |
| LifecycleAttempts.RequestFormat | src/common/util.js:251-259 | that format is the frozen election's, with the opening time of the first attempt after the freezing time |
| LifecycleAttempts.StuckForever | src/auth/openElection.js:116-120 | a first opening time not after the freezing time keeps the election from opening in every continuation |
| LifecycleAttempts.CloseCompletes | src/auth/closeElection.js:98-137 | from every reachable state in which everyone listed is open, whatever is interleaved, an attempt to close in which everyone is reached and heard closes the election at the authority and everywhere |
| LifecycleAttempts.ClosesIff | src/auth/closeElection.js:98-137 | an attempt to close can succeed exactly if everyone on the list has opened |
| LifecycleHarms.LateRegistration | src/auth/registerTeller.js:132-153 | a run from the start after which the authority is in state 2 and a registered teller in state 1 |
| LifecycleHarms.LateRefusal | src/auth/registerTeller.js:149-155 | a run from the start after which a well-formed request is refused with -6 and no attempt opens the election |
| LifecycleHarms.StuckReached | src/auth/openElection.js:112-121 | a run from the start after which the election never opens |
| Compression.RootByPower | src/common/Elliptic.js:93-96 | for primes congruent to 3 modulo 4, the power (p+1)/4 of a square is a root of it |
| Compression.DecompressCompressed | src/common/Elliptic.js:36-111 | decompressing a compressed point of the curve gives that point back |
| Compression.CompressDecompressed | src/common/Elliptic.js:57-111 | a type octet and x are accepted exactly if some point has that x, and what comes out compresses to what went in |
| Jacobian.FormulaAdds | src/common/Elliptic.js:474-507 | H vanishes exactly for equal affine x; otherwise the computed triple stands for the chord sum of the affine points |
| Compression.OnCurve | src/common/Elliptic.js:92-93 | the equation tested is that of the curve in its usual form |
| Compression.DecompressKinds | src/common/Elliptic.js:57-111 | only the octets 2 and 3 are accepted; the root that comes out is even exactly for 2, and in range but for an odd root of 0 |
| Compression.OneIsEven | src/common/Elliptic.js:34-43 | of a point and its mirror image exactly one compresses to the octet 2, the one with even y |
| Compression.OnlyRoot | src/common/Elliptic.js:84-111 | a root in range with the parity asked for is the one that comes out |
| CurveGroup.AddJac | src/common/Elliptic.js:464-508 | whatever it returns stands for the sum in the group, through all branches; it throws exactly if a finite point whose z is not 1 is added to itself or to its inverse |
| CurveGroup.EqualsAffine | src/common/Elliptic.js:569-581 | decides equality with any affine point of reduced coordinates, and throws exactly for a finite point against the one at infinity |
| WindowMult.ReadFour | src/common/Elliptic.js:545-549 | reading four more bits of a multi-limb number multiplies what was read by 16 and adds the nibble |
| WindowMult.PointJac.Multiples | src/common/Elliptic.js:556-567 | on a curve of prime order above 15 the table is always filled with 0 to 15 times the point, and built once |
| WindowMult.MultJac2 | src/common/Elliptic.js:529-554 | for limb lists of any lengths and any radix divisible by 4 the result is k1 P + k2 Q; there is none exactly if at some nibble the sum so far is the next entry or its inverse, and that entry's z is not 1 |
| WindowMult.ValueLaws | src/common/Elliptic.js:529-554 | a number's first limb is its lowest: a limb in front adds itself to the rest times the radix |
| WindowMult.ValueTrimmed | src/common/Elliptic.js:532-540 | a highest limb of 0 is worth nothing |
| WindowMult.SecondLimb | src/common/Elliptic.js:529-554 | for the limbs 0 and 1 a result is that power of two times the point |
| WindowMult.TwiceTwice | src/common/Elliptic.js:529-554 | 2 P + 2 P throws exactly if the z of the double is not 1 |
| Examples.AdditionThrows | src/common/Elliptic.js:486-495 | a point of the small curve, with z = 2, that cannot be added to itself |
| CreateElection.Validate | src/auth/createElection.js:17-110 | of data of the right types, accepts exactly the elections with a port in range, distinct non-empty names and ids, pairs that name both, no clash within a position, and two candidates at least for each |
| CreateElection.AcceptedNames | src/auth/createElection.js:17-75 | an accepted election has a port from 1 to 65535, and distinct, non-empty names and ids |
| CreateElection.AcceptedPair | src/auth/createElection.js:77-103 | every pair of it names a position and a candidate |
| CreateElection.AcceptedApart | src/auth/createElection.js:77-103 | within a position neither an id nor a name comes twice |
| CreateElection.NothingElse | src/auth/createElection.js:17-110 | whatever has such ids, names, pairs and candidates is accepted |
| CreateElection.AcceptedChoice | src/auth/createElection.js:105-110 | every position has two candidates at least |
| Layout.ForInOrder | src/common/util.js:369-377 | enumerating a dictionary keeps ascending keys in order exactly if they are all negative or all not |
| Layout.BuildElectionPos | src/common/util.js:354-380 | the grid in enumeration order; fails exactly on a pair without its position |
| Layout.InitElectionPos | src/common/tallyingUtil.js:3-31 | the same grid filled with zeros |
| Layout.InitPosDataArray | src/autoscript/autovote.js:134-165 | the grid sorted by position and candidate |
| Layout.LayoutAgreement | src/auth/createElection.js:29-110 | for every accepted election the client's grid has at least two distinct candidates everywhere, and equals the servers' exactly if the position ids do not mix signs |
| Examples.NegativeChoice | src/autoscript/autovote.js:477-503 | an accepted election in which a vote for one candidate is refused by the board, short of a degenerate challenge |
| Examples.MixedIsAccepted | src/common/util.js:369-377 | an accepted election whose positions the servers and the client take in different orders |
| LineReader.SplitParts | src/common/readlineSync.js:31-46 | splitting in parts and glueing is splitting the whole, unless a CR LF is cut |
| LineReader.PiecesOfText | src/common/readlineSync.js:31-46 | the chunk-wise pieces are those of the text exactly if no CR LF is cut; each cut makes one piece more |
| LineReader.Reader.Getline | src/common/readlineSync.js:15-64 | yields the next line or null, never undefined, keeping yielded, cached and partial text together equal to the pieces read |
| LineReader.ReadAll | src/common/readlineSync.js:15-64 | for every text and all read sizes, the lines without a last empty one, exactly if no read starts inside a CR LF, with one line more for each that does, and null from then on |
| LineReader.NothingToCut | src/common/readlineSync.js:31-46 | text without CR LF is read right whatever the read sizes |
| LineReader.FullReadsCut | src/common/readlineSync.js:27-31 | with reads that fill the buffer, nothing is cut exactly if no multiple of 65536 falls into a CR LF |
| LineReader.CutExample | src/common/readlineSync.js:31-46 | a line of 65535 characters and its CR LF, read as two lines |
| Paging.Query | src/esp/dumpVotes.js:34-52 | a page continues in order what was read, leaving nothing out |
| Paging.DumpRows | src/esp/dumpVotes.js:30-74 | for every limit from 1 on the loop ends and writes every row exactly once in order |
| Paging.OneDump | src/esp/dumpVotes.js:30-74 | a table has only one dump |
| Paging.BallotTable.SaveVote | src/esp/saveVote.js:272-316 | ballots are inserted only while the election is open, one per voter |
| Paging.DumpTwice | src/esp/dumpVotes.js:15-83 | two dumps, with different limits and with votes sent in between, are equal |

## Left out
- Values of the wrong JSON type, and the `typeof` tests that refuse them: fields have the type the code asks for.
- Texts that do not decode to a point or number, and the exceptions they raise.
- The hash is a function of the commitment and the two announcements, not of their bytes; base64, AES, SHA-256 and the signature schemes are functions with the laws stated in `World`.
- That two different elections or votes never share a text, whose fields follow each other without separators: texts are shown to change with each single field, not with several at once.
- Requests made up from the authority's own signatures: the theorems about attempts deliver only requests the authority has sent; `ForeignMessages` has any others, but for what happens to attempts.
- Rounding of times by the database, and clocks that go back between the phases; a close request carries no opening time, so nothing is said about the order of opening and closing.
- Two attempts to open or close at the same time, and an attempt whose final update is lost.
- The authority's checks of URLs and of a teller's port, e-mail, HTTP, routing and timers.
- Remotes.TellerServer.RegisterElection: the token, the checks of the two URLs and the fetching of the public keys are not modelled; the signature over the frozen election is.
- sjcl's own point doubling, mixed addition, limb normalization and modular power: they appear by contract.
- WindowMult.MultJac2: shifts count modulo 32 in JavaScript, so the model's bit extraction is the code's for a radix up to 32 only.
- `multJac`, the loop of `multJac2` with one table, and the JavaScript `generate_vote`, `proof_01` and `verify_proof_01` of `src/common/Elliptic.js`, which the native ones repeat.
- `proof_1` and `verify_proof_1` of `src/common/Elliptic.js`, which nothing calls.
- BoardTally.Board.FinalTally: numbers in a stored total are already decoded, so the case of an undecodable one, which counts as not passing, does not appear.
- WholeElection.Election: receipts, failing servers and aborted transactions do not appear in the run; `TellerDb.SaveReceipt`, `TallyAttempts` and the lifecycle modules have them one by one.
- OfflineVerify.Master.WorkerDies: a send to a worker that has gone is modelled as that worker's death after it got the line.
- Multi-byte characters cut by a read, and reads that return nothing before the end of a file.
- `src/common/offlineVerifyWithoutSign.js`, a copy of the verifier without signatures.
- Voter lists, link generation, server entry points, password and parameter scripts, the web pages and the vendored tools.
