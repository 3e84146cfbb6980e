# LocalTrans, verified

A Dafny model of the parts of LocalTrans whose correctness hangs on state that many tasks share: the session
table and pairing of two peers, the control stream's framing, the transfer card table of the desktop shell, the
discovery replay guard, the business card text form, the reconnect loop and the device list. `dafny verify
dfyconfig.toml` checks everything.

Where the program updates state in place the model is a class whose methods are proved equal to functions of the
old state; the claims about runs are proved of those same functions. Interleavings are step systems: one lock region,
or one message handler, is one step, and the lemmas quantify over every run.

| file | what it models |
|---|---|
| `ControlFraming.dfy` | length-prefixed control messages: one-shot decoding, exact reads, and the loop over a growing buffer |
| `SessionTable.dfy` | one entry per peer, edited by connections, their exits, gate timers and disconnects |
| `PairingMachine.dfy`, `Pairing.dfy` | consent, codes and trust of two nodes, with queues per connection, crossing and superseded connections |
| `CodeJudgement.dfy` | what becomes of each code, message and step of a user, and the bound of three wrong codes over runs |
| `PairingOutcomes.dfy`, `TrustRemoval.dfy`, `PairingRuns.dfy` | how often success is reported, when trust is mutual, what outlives its removal, and runs that show each |
| `Cooldown.dfy` | wrong codes and the five minutes that follow three of them |
| `TrustStore.dfy` | the list of trusted peers |
| `ReplayGuard.dfy` | nonces of discovery packets in a bounded window |
| `Text.dfy`, `BusinessCard.dfy` | printing and tolerant parsing of the business card |
| `TransferCard.dfy`, `Children.dfy` | one card's state machine; the byte accounts of a batch card |
| `PeerKeys.dfy`, `CardTable.dfy`, `CardLife.dfy` | the id spaces, the card table's operations, and what they keep over a run |
| `Slots.dfy` | the permit gate and the peer locks |
| `Reconnect.dfy` | automatic reconnection as a trace |
| `DeviceMerge.dfy` | the merged device list |

## Where the code does something else than promised

Each of these is a lemma with the exact condition or a concrete run.

- `SessionTable.StaleDownHappens`: SessionDown is sent after the table lock is given up (`session.rs:1848-1862`), so a
  reconnect in between makes it stale; `StaleDownIffReopened` says exactly when.
- `PairingRuns.TwoReportsHappen`: the look at the trust list, the clearing of the code machine and the write of trust are
  three lock regions (`session.rs:1967-2009`), so two control loops of one node can both find no trust and both report
  success; `PairingOutcomes.SecondReportIffLooksOverlap` says exactly when.
- `PairingRuns.AnswerComesBeforeTrust`: the answer goes out before trust is written (`session.rs:1533-1534`), so the side
  that is told of success can trust a peer that does not trust it yet.
- `PairingRuns.TrustReturnsUnasked`: a second answer under way on a superseded connection survives the removal of trust
  and gives it back without any new consent; `TrustRemoval.RegainsIffLeftover` says exactly when that can happen.
- `PairingRuns.StoredCodeTrustsOneWay`: a code stored before consent and found right at the grant writes trust on one side
  and sends no answer (`session.rs:1895-1906`).
- `CodeJudgement.ThirdOnOtherConnection`: the third wrong code ends the loop it came on (`session.rs:1542-1553`), whose
  clean-up spares the entry of another connection (`session.rs:1839-1847`); on a superseded connection it leaves the
  entry open to the right code. `CodeJudgement.WrongCodeSent` says what it does on the entry's own.
- `ReplayGuards.EdgeIsReplayed`: eviction keeps stamps strictly after the cut-off (`discovery.rs:75`), staleness is
  inclusive (`discovery.rs:157`), so on the window's last millisecond a packet is accepted again, and only then.
- `BusinessCards.NoiseIsIgnored`: a non-blank line without a known label changes nothing except that an otherwise
  blank text is then reported as lacking its name instead of as empty.
- `Children.TwoNamesBreakIt`: one job id under two file names can leave two rows for one name; `UpsertKeepsApartIff` has
  the exact condition.
- `CardTable.OverlapReportsTwice` and `CardTable.FailureIsReportedDone`: two overlapping rechecks of one parent both
  report it as done, and a failure between the halves of one is reported as done; `CardTable.EndReportsIff` and
  `CardLife.ReportsWithinEarlyLooks` give the exact condition and the bound.
- `CardLife.FirstCreationMayOverwrite`: the start-up scan skips ids of the source segment (`main.rs:1256-1260`), so a
  loaded id just below that segment makes the first new card overwrite a loaded source row.
- `PeerKeys.KeysApart`: the comment at `commands.rs:857-858` says two fingerprints share a key only if their first
  64 bits agree; the shift makes it the first 61.
- `DeviceMerge.TwoStaleHideEachOther`: two stale offline devices of one name hide each other.

## Model

| member | source | states |
|---|---|---|
| ControlFraming.PrefixRoundTrip | crates/localtrans-core/src/protocol.rs:281-289 | reading four big-endian octets back gives the length written, whatever follows |
| ControlFraming.PrefixIsBigEndian | crates/localtrans-core/src/protocol.rs:281-289 | of the four octets the first weighs most |
| ControlFraming.Take | crates/localtrans-core/src/session.rs:2060-2076 | a message taken from the buffer leaves strictly less of it |
| ControlFraming.TakeIff | crates/localtrans-core/src/session.rs:2060-2076 | a buffer waits, is refused or yields its first message exactly as the announced length, the octets present and the body say |
| ControlFraming.TakeIsStable | crates/localtrans-core/src/session.rs:2060-2076 | what has been taken or refused stays so when more bytes arrive: bytes to come never change a finished frame |
| ControlFraming.NeedIsShort | crates/localtrans-core/src/session.rs:1452-1478 | a buffer without a complete frame is below 4 MiB + 4, and stays within 4 MiB + 3 + 16 KiB after one read |
| ControlFraming.DecodeControlIsTake | crates/localtrans-core/src/protocol.rs:291-309 | the one-shot decoder accepts exactly the inputs from which the streaming one takes a message and leaves nothing |
| ControlFraming.TakeEncoded | crates/localtrans-core/src/protocol.rs:281-321 | an encoded message of legal size is taken back from the front of any buffer, the rest untouched |
| ControlFraming.PumpSplits | crates/localtrans-core/src/session.rs:1468-1478 | feeding two pieces one after the other ends as feeding them joined |
| ControlFraming.PumpExhausts | crates/localtrans-core/src/session.rs:1468-1478 | at every wait point the buffer holds no complete frame |
| ControlFraming.SplitIndependence | crates/localtrans-core/src/session.rs:1442-1478 | messages, verdict and remaining buffer depend on the bytes alone, for any bytes and any two ways of cutting them into reads |
| ControlFraming.PumpEncoded | crates/localtrans-core/src/session.rs:1468-1478 | a stream of encoded messages runs the handler over exactly those, in order, and stops where the handler stops |
| ControlFraming.PumpTail | crates/localtrans-core/src/session.rs:1468-1478 | good messages followed by anything: a bad frame cuts the loop off with the handler having seen exactly those, an incomplete one waits, and nothing counts after a message that stops the handler |
| ControlFraming.DeliversAll | crates/localtrans-core/src/protocol.rs:281-321 | a concatenation of encoded messages delivers exactly those messages and leaves an empty buffer |
| ControlFraming.EncodedStreamArrives | crates/localtrans-core/src/session.rs:1468-1478 | the same through any cutting into reads |
| ControlFraming.ArrivesIffItFits | crates/localtrans-core/src/protocol.rs:281-321 | a sent message arrives if and only if its body is at most 4 MiB, although the encoder does not check |
| ControlFraming.ByteStream.ReadExact | crates/localtrans-core/src/session.rs:2078-2094 | an exact read yields the next octets or fails at the end of the stream |
| ControlFraming.ByteStream.RecvMsg | crates/localtrans-core/src/session.rs:2078-2094 | reading one message from a stream agrees with taking one from the front of its bytes, errors included |
| ControlFraming.RecvAll | crates/localtrans-core/src/session.rs:2078-2094 | repeated exact reads of a stream give the state and verdict of the buffered loop over the same bytes |
| ControlFraming.ControlReader.TakeMsg | crates/localtrans-core/src/session.rs:2060-2076 | the in-place buffer becomes the rest after the frame, or stays as it is when no frame is complete |
| ControlFraming.ControlReader.OnRead | crates/localtrans-core/src/session.rs:1452-1478 | one read of the control loop is one feed of the pure loop, and leaves less than 4 MiB + 4 octets waiting |
| ControlFraming.ControlReader.DrainAtEnd | crates/localtrans-core/src/session.rs:1714-1820 | the loops at the end of the stream never find a message in a buffer the control loop has waited on |
| ControlFraming.LittleEndianRoundTrip | crates/localtrans-core/src/protocol.rs:330-350 | fixed-width little-endian numbers read back |
| ControlFraming.HeaderRoundTrip | crates/localtrans-core/src/protocol.rs:330-350 | a chunk header decodes from the front of any payload |
| ControlFraming.HeaderLayout | crates/localtrans-core/src/protocol.rs:330-350 | the header is twelve octets: job id, then chunk number, each with the least weight first |
| SessionTable.SessionManager.Insert | crates/localtrans-core/src/session.rs:1379-1390 | the peer's entry is this connection; a gate timer is armed exactly for a waiting one |
| SessionTable.SessionManager.GateTimeout | crates/localtrans-core/src/session.rs:1390-1413 | the entry goes, and its connection is closed, only if it is still waiting and of this generation |
| SessionTable.SessionManager.ExitLoop | crates/localtrans-core/src/session.rs:1835-1862 | the entry goes, and SessionDown is due, unless it belongs to another connection |
| SessionTable.SessionManager.Grant | crates/localtrans-core/src/session.rs:1143-1159 | a waiting entry becomes granted; any other is refused and unchanged |
| SessionTable.LogFollowsTable | crates/localtrans-core/src/session.rs:1366-1433 | after one more lock region the table still holds the last connection opened that no event of its own has ended |
| SessionTable.StepKeepsConsistent | crates/localtrans-core/src/session.rs:1366-1433 | every lock region of any task keeps entries, ids, generations and history in agreement |
| SessionTable.RunsAreConsistent | crates/localtrans-core/src/session.rs:1366-1433 | the same over every interleaving from the empty table |
| SessionTable.TableIsLastConnection | crates/localtrans-core/src/session.rs:1377-1413 | on every run the entry of a peer is the last connection inserted, or none if that very one exited, expired or was cut |
| SessionTable.CurrentMeans | crates/localtrans-core/src/session.rs:1377-1413 | the reference spelt out over the history: the last opening counts until an event ends that very connection |
| SessionTable.OldConnectionIsHarmless | crates/localtrans-core/src/session.rs:1835-1861 | the exit or timer of a connection that is not current changes nothing and, while another is in the table, is silent |
| SessionTable.GateCutsIff | crates/localtrans-core/src/session.rs:1389-1413 | the gate removes an entry exactly if it is of this generation and still waiting; every other entry stays |
| SessionTable.GrantTurnsIff | crates/localtrans-core/src/session.rs:1143-1159 | a grant makes exactly the peer's waiting entry granted and changes nothing else of any entry |
| SessionTable.ExitRemovesIff | crates/localtrans-core/src/session.rs:1835-1847 | a loop's clean-up removes exactly an entry with its own connection id |
| SessionTable.ConsentIsHistory | crates/localtrans-core/src/session.rs:1143-1390 | on every run the consent of an entry is its connection's own, or granted if it came in waiting and a grant to its peer came since its insertion |
| SessionTable.TimerCutsIffUngranted | crates/localtrans-core/src/session.rs:1389-1413 | on every run the timer of the current connection cuts it if and only if it came in waiting and no grant to its peer came since its insertion |
| SessionTable.LeavingHasLeft | crates/localtrans-core/src/session.rs:1839-1862 | a connection about to send SessionDown has gone through such a clean-up |
| SessionTable.StaleDownIffReopened | crates/localtrans-core/src/session.rs:1848-1862 | at the sending an entry exists exactly when the events since the clean-up, taken alone, leave a connection open |
| SessionTable.StaleDownHappens | crates/localtrans-core/src/session.rs:1848-1862 | a run in which SessionDown is sent although the peer is connected again |
| PairingMachines.PairingMachine.SubmitRemote | crates/localtrans-core/src/pairing.rs:55-63 | a code is accepted exactly if it is the one hashed; a wrong one counts, in eight bits |
| Pairing.PairingEndpoint.JudgeCode | crates/localtrans-core/src/session.rs:1929-1943 | the code is judged by the machine in the table, if any, with its outcome |
| Pairing.PairingEndpoint.OnPairCodeSubmit | crates/localtrans-core/src/session.rs:1483-1527 | a submitted code is ignored, stored or judged by the entry's consent |
| Pairing.PairingEndpoint.GrantConsent | crates/localtrans-core/src/session.rs:1143-1159 | only a waiting entry is granted, with a machine for the new code and the stored code kept |
| Pairing.PairingEndpoint.TakePending | crates/localtrans-core/src/session.rs:1880-1893 | a stored code is taken once |
| Pairing.PairingEndpoint.GateTimeout | crates/localtrans-core/src/session.rs:1389-1413 | the gate ends only a waiting entry of its own connection |
| Pairing.PairingEndpoint.LoopEnds | crates/localtrans-core/src/session.rs:1835-1847 | an ending loop removes only its own entry |
| Pairing.MatchProves | crates/localtrans-core/src/session.rs:1503-1518 | a match means one user granted this very code and the other typed it |
| Pairing.HandledHonest | crates/localtrans-core/src/session.rs:1483-1587 | handling any message that rests on the users' deeds leaves only state and messages that do |
| Pairing.WorkedHonest | crates/localtrans-core/src/session.rs:1880-1926 | so does the rest of a grant, and the writing of trust |
| Pairing.StepHonest | crates/localtrans-core/src/session.rs:1143-1243 | every step of either node, user, timer or network keeps the joint invariant over both nodes and all messages |
| Pairing.RunsAreHonest | crates/localtrans-core/src/session.rs:1143-1243 | the joint invariant holds on every run |
| Pairing.HistoryIsReal | crates/localtrans-core/src/session.rs:1052-1080 | what counts as granted or typed is a step the user took in the run |
| Pairing.GainIsProven | crates/localtrans-core/src/session.rs:1992-2009 | a step that gains trust is the write of a completion, and before it lie a grant and the submission of exactly that grant's code |
| Pairing.TrustNeedsGrantAndCode | crates/localtrans-core/src/session.rs:1143-1182 | on every run, with crossing and superseded connections and any number of removals: between any moment without trust and any later one with it a step writes trust, after one user granted and the other submitted exactly that grant's code |
| PairingOutcomes.ReportsArePassedChecks | crates/localtrans-core/src/session.rs:1967-2009 | on every run, trust removed or not, each look at the trust list that found no trust is reported exactly once, or still owed |
| PairingOutcomes.TrustedIffWritten | crates/localtrans-core/src/session.rs:1996-2008 | without removal a node trusts exactly from its first write on |
| PairingOutcomes.SecondReportIffLooksOverlap | crates/localtrans-core/src/session.rs:1967-2009 | without removal, a second report is made or owed if and only if two completions of the node looked at the trust list before either wrote |
| PairingOutcomes.StepPaid | crates/localtrans-core/src/session.rs:1529-1541 | every step but a removal keeps: an announced success is covered by its sender's trust or the completion it has begun |
| PairingOutcomes.RunsArePaid | crates/localtrans-core/src/session.rs:1529-1574 | the same over every run without removal |
| PairingOutcomes.SettledForGood | crates/localtrans-core/src/session.rs:1948-2010 | trust written, or a completion begun, is never lost without removal |
| PairingOutcomes.DeliveredResultIsMutual | crates/localtrans-core/src/session.rs:1562-1574 | once PairResult{ok:true} is delivered each side trusts the other or is in the middle of the completion that writes trust, whatever became of the entries; once none is under way, both trust |
| PairingOutcomes.StepKnown | crates/localtrans-core/src/session.rs:1528-1541 | a node that has begun to trust faces one that has too, or its answer is under way; every step but a removal or a stored match keeps this |
| PairingOutcomes.GainedTrustIsTwoWay | crates/localtrans-core/src/session.rs:1528-1574 | pairing ends two-way: without removal and stored matches, a node that gained trust faces a trusting one unless its answer was never delivered or the other's completion is not through |
| PairingOutcomes.WriteNeedsNoSession | crates/localtrans-core/src/session.rs:1973-2008 | the write of a completion does not depend on the session entry |
| CodeJudgement.WrongCodeSent | crates/localtrans-core/src/session.rs:1503-1553 | a wrong code on the entry's connection is answered with failure; the first two leave the session with one more on the count, the third ends the loop and leaves no session |
| CodeJudgement.RightCodeSent | crates/localtrans-core/src/session.rs:1503-1541 | the right code is answered with success and begins a completion, however many wrong ones came before |
| CodeJudgement.EarlyCodeIsStored | crates/localtrans-core/src/session.rs:1483-1502 | a code that comes before consent is stored, the last one counting, and not answered |
| CodeJudgement.IdleCodeIsPassedOver | crates/localtrans-core/src/session.rs:1483-1561 | without an entry or machine, or on the dialling side, a code changes nothing and is not answered |
| CodeJudgement.StoredCodeJudged | crates/localtrans-core/src/session.rs:1895-1926 | a stored code is judged by the same count, without an answer; the third wrong one removes the entry |
| CodeJudgement.ThirdOnOtherConnection | crates/localtrans-core/src/session.rs:1542-1553 | a third wrong code on another connection than the entry's ends only that loop, and the right code still pairs |
| CodeJudgement.ThreeWrongCodesAtMost | crates/localtrans-core/src/session.rs:1929-1943 | on every run with one connection at most three codes are judged wrong, a stored one included; from the third on there is no entry, and until then the machine's count is their number |
| CodeJudgement.CooldownJudgesAlike | crates/localtrans-core/src/session.rs:1503-1553 | the model of the cooldown judges every code as the control loop does: the same answer, count and end |
| CodeJudgement.GateCutsIff | crates/localtrans-core/src/session.rs:1389-1413 | the gate removes exactly a waiting entry of its own connection and touches nothing else |
| CodeJudgement.LoopTakesIff | crates/localtrans-core/src/session.rs:1835-1847 | a loop that ends takes exactly its own connection's entry |
| CodeJudgement.GrantOpens | crates/localtrans-core/src/session.rs:1143-1159 | a grant opens a waiting entry for the new code with no wrong code counted, and keeps the stored one |
| CodeJudgement.StoredCodeIsTaken | crates/localtrans-core/src/session.rs:1880-1893 | the rest of a grant takes the stored code out of the entry and judges it next, or has nothing to do |
| CodeJudgement.CompletionLeaves | crates/localtrans-core/src/session.rs:1967-2009 | a completion of a node that did not trust ends with trust, one report and no code machine |
| CodeJudgement.ClosingMessage | crates/localtrans-core/src/session.rs:1645-1713 | a denial, cancellation, goodbye or broken trust ends the loop and takes its own entry; only the last ends trust |
| CodeJudgement.OpenMessage | crates/localtrans-core/src/session.rs:1562-1587 | being told of success begins a completion; being told of a wrong code or a grant changes nothing |
| CodeJudgement.UserSteps | crates/localtrans-core/src/session.rs:1052-1243 | what each step of the user queues for the session's loop, behind what is there, and which of them take entry and trust at once |
| CodeJudgement.FlushMoves | crates/localtrans-core/src/session.rs:1455-1467 | queued messages reach the wire oldest first |
| CodeJudgement.DeliverTakes | crates/localtrans-core/src/session.rs:1442-1478 | a loop meets the other side's messages in order, one at a time, and its answer goes behind all on its own wire |
| CodeJudgement.EntryWaitsIff | crates/localtrans-core/src/session.rs:1366-1390 | a new entry waits for consent exactly on the accepting side and if trust was missing when it looked |
| TrustRemoval.NothingLeftNoTrust | crates/localtrans-core/src/session.rs:1562-1574 | with no completion of a node's under way and no answer that can reach it, it does not come to trust without a grant, a code or a match |
| TrustRemoval.CompletionTrusts | crates/localtrans-core/src/session.rs:1967-2009 | a completion under way can run through and write trust, whatever was removed meanwhile |
| TrustRemoval.ResultTrusts | crates/localtrans-core/src/session.rs:1562-1574 | an answer of success under way, with no closing message before it, can be heard and gives trust |
| TrustRemoval.RegainsIffLeftover | crates/localtrans-core/src/session.rs:1562-1574 | a node without trust, after a removal or not, can come to trust without any further grant, code or match if and only if a completion of its is under way or an answer of success can still reach it |
| TrustRemoval.NothingMeetsNoTrust | crates/localtrans-core/src/session.rs:1483-1574 | if besides no code queued, under way or stored is right for a machine in place, trust does not come until some user grants or types in a code |
| TrustRemoval.FreshConsentNeeded | crates/localtrans-core/src/session.rs:1143-1182 | from a state with no machine, no code stored or under way, no completion and no success under way, trust is gained only after a grant and the submission of its code that both came later |
| PairingRuns.PairingSucceeds | crates/localtrans-core/src/session.rs:1483-1574 | the ordinary course of grant and code is a run, and ends in two-way trust with one report each |
| PairingRuns.AnswerComesBeforeTrust | crates/localtrans-core/src/session.rs:1529-1541 | a run in which the side told of success trusts a peer that does not trust it yet |
| PairingRuns.StoredCodeTrustsOneWay | crates/localtrans-core/src/session.rs:1895-1906 | a code stored before consent can leave one side trusting with nothing under way to tell the other |
| PairingRuns.TwoReportsHappen | crates/localtrans-core/src/session.rs:1967-2009 | a run without removal in which one node reports success twice |
| PairingRuns.TrustReturnsUnasked | crates/localtrans-core/src/session.rs:1562-1574 | a run in which trust is removed and returns with no grant, code or match after the removal |
| Cooldowns.CooldownTable.RecordCooldown | crates/localtrans-core/src/session.rs:2021-2028 | expired entries go, the peer's lasts 300 seconds from now |
| Cooldowns.CooldownTable.CheckHandshake | crates/localtrans-core/src/session.rs:1260-1274 | a handshake is refused, with the seconds left, exactly while the peer's entry is unexpired |
| Cooldowns.RefusedIff | crates/localtrans-core/src/session.rs:1260-1274 | a handshake is refused exactly before the peer's expiry, and the seconds told are the whole ones left |
| Cooldowns.RecordedLasts | crates/localtrans-core/src/session.rs:2021-2028 | a failure keeps its own peer out for exactly 300 seconds and no other peer |
| Cooldowns.GrantJudgesStored | crates/localtrans-core/src/session.rs:1880-1926 | the grant judges a stored code at once, counting it as the first of three if wrong |
| Cooldowns.HappenIsFair | crates/localtrans-core/src/session.rs:1483-1553 | one event keeps: the machine's count is the number of wrong codes, the third ends the session and is on record |
| Cooldowns.RunsAreFair | crates/localtrans-core/src/session.rs:1483-1553 | the same over any sequence of codes, grant, other peers' failures and handshakes |
| Cooldowns.AtMostThreeWrongCodes | crates/localtrans-core/src/pairing.rs:55-71 | at most three wrong codes are judged per grant, one stored before consent included, and the session is over exactly at the third |
| Cooldowns.RefusedForFiveMinutes | crates/localtrans-core/src/session.rs:915-929 | every handshake of that peer begun within 300 seconds of the third wrong code is refused; no clean-up drops the entry early |
| Cooldowns.ThreeWrongCodesEndIt | crates/localtrans-core/src/session.rs:1542-1553 | three wrong codes after a grant do end the session |
| TrustStores.TrustStore.Find | crates/localtrans-core/src/identity.rs:135-138 | the first entry of that fingerprint, or none |
| TrustStores.TrustStore.IsTrusted | crates/localtrans-core/src/identity.rs:114-116 | true exactly for listed fingerprints |
| TrustStores.TrustStore.Upsert | crates/localtrans-core/src/identity.rs:118-124 | the first entry of the fingerprint is replaced in place, or the new one appended |
| TrustStores.TrustStore.Remove | crates/localtrans-core/src/identity.rs:126-133 | the first entry of the fingerprint goes, the others keep their order |
| TrustStores.UpsertCounts | crates/localtrans-core/src/identity.rs:118-124 | an upsert never lists a fingerprint twice that was not |
| TrustStores.UpsertMeans | crates/localtrans-core/src/identity.rs:118-124 | the new entry becomes the first of its fingerprint, in the old one's place or at the end, and all others stay |
| TrustStores.RemovedMeans | crates/localtrans-core/src/identity.rs:126-133 | exactly the first entry of the fingerprint is taken out |
| TrustStores.RemovedIffListedOnce | crates/localtrans-core/src/identity.rs:126-133 | removal ends trust exactly if the peer was listed at most once |
| ReplayGuards.ReplayGuard.CheckNonce | crates/localtrans-core/src/discovery.rs:71-100 | eviction, replay, overflow and recording, as one function of the old table |
| ReplayGuards.ReplayGuard.VerifyAndParse | crates/localtrans-core/src/discovery.rs:120-169 | what is accepted parses from all but the last 64 octets, is signed by those under its own valid key and is at most ten minutes off; malformed, badly signed or stale packets leave the guard alone |
| ReplayGuards.OutcomeByParts | crates/localtrans-core/src/discovery.rs:120-169 | the exact condition of each outcome, on octets and clock alone: malformed, badly signed, stale, and what is left to the guard |
| ReplayGuards.AcceptedWasSigned | crates/localtrans-core/src/discovery.rs:120-169 | over runs, every accepted nonce and stamp came in an arrival with a valid signature, timely when it arrived |
| ReplayGuards.AfterIsSound | crates/localtrans-core/src/discovery.rs:71-169 | one packet keeps: at most 4096 entries, only accepted stamps, none further ahead of the clock than the tolerance, and every accepted one the window still covers |
| ReplayGuards.RunsAreSound | crates/localtrans-core/src/discovery.rs:71-169 | the same over any sequence of packets on a clock that does not go back |
| ReplayGuards.NeverOverCapacity | crates/localtrans-core/src/discovery.rs:85-95 | the table never exceeds 4096 entries |
| ReplayGuards.Verdict | crates/localtrans-core/src/discovery.rs:120-169 | the outcome of a packet from its own facts and the table: which of the errors, or acceptance |
| ReplayGuards.ReplayOnlyAtTheEdge | crates/localtrans-core/src/discovery.rs:75-83 | an accepted packet is never accepted again except at exactly its stamp plus the tolerance |
| ReplayGuards.EdgeIsReplayed | crates/localtrans-core/src/discovery.rs:75-157 | at that millisecond it is |
| ReplayGuards.RecordedEntriesExpire | crates/localtrans-core/src/discovery.rs:71-76 | an entry recorded at time t is gone after any check at t plus twice the tolerance or later |
| ReplayGuards.RefusedUnseen | crates/localtrans-core/src/discovery.rs:120-163 | packets refused before the nonce check leave no trace |
| BusinessCards.Print | crates/localtrans-core/src/business_card.rs:101-116 | appending to a string gives the trimmed lines of the card |
| BusinessCards.ParseText | crates/localtrans-core/src/business_card.rs:119-183 | the loop over lines gives what folding the lines from an empty draft gives, with the same first error |
| BusinessCards.ParsedIsValid | crates/localtrans-core/src/business_card.rs:119-244 | whatever text is parsed, a resulting card is valid: trimmed name, hex fingerprint, 1 to 16 distinct addresses, well-formed endpoints |
| BusinessCards.PrintedText | crates/localtrans-core/src/business_card.rs:101-124 | the printed text of a valid card splits into the printed lines and stays under the input cap |
| BusinessCards.RoundTripIffValid | crates/localtrans-core/src/business_card.rs:101-244 | printing and parsing returns the card if and only if it is valid |
| BusinessCards.ParsedPrintsBack | crates/localtrans-core/src/business_card.rs:101-183 | a card parsed from arbitrary text prints and parses back to itself |
| BusinessCards.NoiseIsIgnored | crates/localtrans-core/src/business_card.rs:132-170 | a line that is blank, without colon or with an unknown label, put anywhere between lines, leaves the outcome alone exactly unless it turns a blank text non-blank |
| BusinessCards.NoiseAtEndIsIgnored | crates/localtrans-core/src/business_card.rs:132-170 | the same for a line after everything else, whether or not the text before it or the line itself ends in a line feed |
| BusinessCards.SignatureIsIgnored | crates/localtrans-core/src/business_card.rs:101-170 | a printed card pasted with such a line below it parses to that card |
| BusinessCards.BomIsIgnored | crates/localtrans-core/src/business_card.rs:120-121 | one leading byte-order mark changes nothing |
| BusinessCards.LastNameWins | crates/localtrans-core/src/business_card.rs:143 | a later name line replaces earlier ones |
| BusinessCards.LastExitWins | crates/localtrans-core/src/business_card.rs:154-157 | a later exit line replaces earlier ones |
| BusinessCards.LastRelayWins | crates/localtrans-core/src/business_card.rs:158-161 | a later relay line replaces earlier ones |
| BusinessCards.LastPrintWins | crates/localtrans-core/src/business_card.rs:142-166 | the fingerprint is that of the last fingerprint line, in lower case |
| BusinessCards.LowerMeans | crates/localtrans-core/src/business_card.rs:144 | lower-casing changes the capital letters of ASCII and nothing else |
| BusinessCards.PrintInEitherCase | crates/localtrans-core/src/business_card.rs:144-178 | a pasted fingerprint is good exactly if it is 64 hexadecimal digits of either case |
| BusinessCards.LinesOkIff | crates/localtrans-core/src/business_card.rs:132-166 | the lines are accepted exactly if every address and endpoint is valid and no address comes after sixteen different ones |
| BusinessCards.RefusedBecause | crates/localtrans-core/src/business_card.rs:168-183 | which error a text with good lines is refused for, or that it is accepted, by what its lines carry |
| BusinessCards.FirstAddressesStay | crates/localtrans-core/src/business_card.rs:145-153 | addresses keep the order of first mention; repeats add nothing |
| BusinessCards.FailsClosed | crates/localtrans-core/src/business_card.rs:146-161 | one bad address or endpoint line fails the whole text, whatever follows |
| BusinessCards.ParsedMeans | crates/localtrans-core/src/business_card.rs:132-166 | name, fingerprint, addresses and endpoints of a parsed card are those of the last or first lines that carry them |
| TransferCards.TransferCard.Apply | src-tauri/src/transfer_state.rs:103-231 | an event is accepted exactly if the table has its edge, and then changes state, times, counts and mark as listed; else nothing changes |
| TransferCards.EdgeIffListed | src-tauri/src/transfer_state.rs:103-231 | the transition table, entry by entry, as a list of edges: those and no others |
| TransferCards.FieldsAfter | src-tauri/src/transfer_state.rs:103-231 | each field after an accepted event, times, speed, counts, reason and mark |
| TransferCards.PauseResume | src-tauri/src/transfer_state.rs:103-231 | pausing and resuming an active card loses nothing but its speed |
| TransferCards.TerminalAbsorbs | src-tauri/src/transfer_state.rs:108-114 | no sequence of events changes a terminal card in any field |
| TransferCards.HistoryIsTruthful | src-tauri/src/transfer_state.rs:103-231 | after any history the cancel mark is set exactly while cancelling, a finish time exactly on ended cards but for a queue time-out, counts are full when done |
| Children.UpsertBalances | src-tauri/src/main.rs:448-472 | one upsert keeps the parent's sums exactly when the new sums fit 64 bits; the subtraction never saturates, rows stay, no row's bytes fall |
| Children.UpsertPutsRow | src-tauri/src/main.rs:448-472 | the row replaced or appended has the incoming job, name, total and state and no less done than before; which row it is, and that no other changes |
| Children.RowIsLast | src-tauri/src/main.rs:448-472 | after any sequence of upserts the state of a row is the one its last upsert carried |
| Children.PullSetsRow | src-tauri/src/commands.rs:1514-1586 | the row of a pulled file after its start, resumption, instant completion or failure |
| Children.PullDoneEndsRow | src-tauri/src/commands.rs:1514-1586 | a pulled file's end finishes its row with all its bytes |
| Children.PullChunkAdds | src-tauri/src/commands.rs:1514-1586 | bytes of a pulled file go to its own row |
| Children.SourceStartSetsRow | src-tauri/src/commands.rs:892-916 | a source job started in a batch has an active row with its name and total |
| Children.SourceEventSetsRow | src-tauri/src/commands.rs:938-964 | bytes and end of a source job go to its row, which keeps name and total |
| Children.PushEndsOldest | src-tauri/src/commands.rs:966-993 | the end of a pushed small file ends the oldest active row without a job |
| Children.BookedBalances | src-tauri/src/commands.rs:764-852 | any one region of a batch handler but the parent's finish keeps the sums |
| Children.BooksBalance | src-tauri/src/commands.rs:1514-1586 | through any interleaving of batch events up to the first finish, done is the sum of the children's, total the sum of their first totals, no child's bytes fall |
| Children.UpsertKeepsApart | src-tauri/src/main.rs:448-470 | if each job id comes with one name, one upsert keeps job ids distinct and a row without one the first of its name |
| Children.RowsStayApart | src-tauri/src/main.rs:448-470 | the same over any sequence of upserts |
| Children.UpsertKeepsApartIff | src-tauri/src/main.rs:448-470 | an upsert keeps the rows apart if and only if a row found by job id does not take a name that a later row without a job has |
| Children.TwoNamesBreakIt | src-tauri/src/main.rs:448-470 | without that condition it fails, after three upserts |
| PeerKeys.OrIsSum | src-tauri/src/commands.rs:865-868 | on 64-bit words shifting and or-ing is the arithmetic used here, and the tag can be read back |
| PeerKeys.Prefix61 | src-tauri/src/commands.rs:865-868 | what remains of the fingerprint is its first seven octets and five bits of the eighth |
| PeerKeys.KeysApart | src-tauri/src/commands.rs:865-887 | two keys coincide exactly when the tags and the top 61 bits of the fingerprints do |
| PeerKeys.KeyRange | crates/localtrans-core/src/session.rs:580-594 | no key equals an engine job id below 2^61 or a source job id |
| CardTable.AppState.constructor | src-tauri/src/main.rs:1238-1262 | the rows read from disk are the table, and the counter starts past every card id among them |
| CardTable.AppState.CardApply | src-tauri/src/main.rs:138-165 | an event changes at most its own row; a cancelling row that ends is removed |
| CardTable.AppState.FinalizeDestroy | src-tauri/src/main.rs:241-259 | the row goes, routes to it stay |
| CardTable.AppState.EngineEvent | src-tauri/src/main.rs:219-269 | an engine event reaches the bound card, or the card of that very id |
| CardTable.AppState.CardCreate | src-tauri/src/main.rs:294-300 | the row is stored under the drawn id, the counter moves on by one, in 64 bits |
| CardTable.AppState.BindEngineId | src-tauri/src/main.rs:272-281 | the job is routed to the card and becomes the card's engine and parts id |
| CardTable.AppState.CardRemoveTerminal | src-tauri/src/main.rs:351-361 | exactly the ended rows go, and are counted |
| CardTable.AppState.SourceChunkAdd | src-tauri/src/main.rs:383-392 | bytes are added to an active card and to no other |
| CardTable.AppState.SourceSpeed | src-tauri/src/main.rs:395-403 | a speed event leaves the counts alone |
| CardTable.AppState.ChildUpsert | src-tauri/src/main.rs:448-472 | the child replaces its row or is appended, and the parent's counts follow |
| CardTable.ChildPutMeans | src-tauri/src/main.rs:448-472 | of the whole table only the parent's row for that child and its two counts change, the row becoming the incoming child |
| CardTable.LastUpsertsDecide | src-tauri/src/main.rs:448-529 | if the last upsert of each row carried an end, the next recheck ends the live parent, as failed exactly if one of them carried a failure |
| CardTable.AppState.PendingChildrenRemove | src-tauri/src/main.rs:544-549 | a route is taken back only if it still leads to this parent |
| CardTable.AppState.CountFailed | src-tauri/src/main.rs:485-490 | whether every child has ended, and how many failed |
| CardTable.AppState.LookAtParent | src-tauri/src/main.rs:482-511 | whether a recheck goes on, with the number of failed children, and the route it takes back |
| CardTable.AppState.EndParent | src-tauri/src/main.rs:512-528 | what a recheck that goes on does to the card as it then is, and what it reports |
| CardTable.AppState.SourcePushAttach | src-tauri/src/commands.rs:892-936 | where a started source job goes: live batch or retry parent, else the peer's single card, else nowhere |
| CardTable.AppState.SourceChunkDone | src-tauri/src/main.rs:2011-2019 | bytes of a batch job go to its child's row, others to the routed card |
| CardTable.AppState.DestroyTransfer | src-tauri/src/commands.rs:3528-3549 | a missing card is an error, an ended one is removed, a live one becomes cancelling |
| CardTable.AppState.FireWatchdog | src-tauri/src/commands.rs:3580-3590 | five seconds on, a card still cancelling is removed |
| CardTable.SomeFailed | src-tauri/src/main.rs:488 | the count is positive exactly if some child failed |
| CardTable.EndApplies | src-tauri/src/main.rs:138-165 | a live card told to fail, or to finish when not pending, ends; if it was cancelling it leaves the table |
| CardTable.EndEnds | src-tauri/src/main.rs:512-528 | the second half of a recheck ends any live parent, pending ones by starting them first |
| CardTable.GuardKeeps | src-tauri/src/main.rs:482-511 | the first half goes on exactly for a live parent whose children have all ended, and takes back only that peer's batch route to this very parent |
| CardTable.RecheckEndsParent | src-tauri/src/main.rs:479-529 | in an uninterrupted recheck a live parent ends exactly if it has children and all have ended: failed with the count if any failed, done in full otherwise, removed if cancelling; only the last but one is reported, and no other card changes |
| CardTable.RecheckSparesEnded | src-tauri/src/main.rs:504-511 | on an ended or missing card no card changes and nothing is reported |
| CardTable.OverlapReportsTwice | src-tauri/src/main.rs:503-528 | two rechecks past the state check before either ends the parent both report it |
| CardTable.EndReportsIff | src-tauri/src/main.rs:512-528 | the second half reports any card in the table that is not cancelling, whatever came between; the report is of a parent just done if and only if the card is still live |
| CardTable.FailureIsReportedDone | src-tauri/src/main.rs:503-528 | a failure between the halves is reported as done |
| CardTable.SingleAttachKeepsCard | src-tauri/src/commands.rs:892-936 | with the peer's batch and retry entries absent or ended, a source job's start leaves card set, total, children, bytes and engine id of the waiting card unchanged and routes the job to it |
| CardTable.ChunksAddUp | src-tauri/src/main.rs:2011-2019 | any sequence of chunks of a routed job adds exactly its bytes to the active card and changes nothing else |
| CardTable.SinglePushCounts | src-tauri/src/commands.rs:892-936 | both together, from the registration of the single key on |
| CardTable.BatchAttachAddsRow | src-tauri/src/commands.rs:900-915 | a live batch parent takes the job as a child row, with its route and offer entry, and no other card changes |
| CardTable.AttachElsewhere | src-tauri/src/commands.rs:892-936 | without a live batch parent and a live registered card no card takes a source job |
| CardTable.BatchChunkGoesToRow | src-tauri/src/main.rs:2011-2019 | bytes of a batch job go to the job's row and to the parent's count, and nowhere else |
| CardTable.DestroyAlwaysTakes | src-tauri/src/commands.rs:3528-3549 | a deletion is refused only for a missing card; a live card is cancelling afterwards, an ended one gone |
| CardTable.WatchdogTakesIff | src-tauri/src/commands.rs:3580-3590 | the watchdog takes a card exactly if it is still cancelling |
| CardTable.BoundRoutes | src-tauri/src/main.rs:272-281 | binding routes exactly that job and marks only its card |
| CardTable.ClearTakesEnded | src-tauri/src/main.rs:351-361 | clearing takes exactly the ended rows |
| CardTable.CreatedStands | src-tauri/src/main.rs:294-300 | a new card stands under the id drawn with no job, mark or transition, and the counter wraps only at 64 bits |
| CardTable.SpeedIsNoted | src-tauri/src/main.rs:395-403 | speed is noted on an active card only and leaves its counts alone |
| CardTable.ReasonCounts | src-tauri/src/main.rs:512-516 | the number in a failed parent's reason reads back as the count |
| CardTable.LiftedClears | src-tauri/src/main.rs:1254-1262 | the counter ends above every loaded id outside the source segment, and no higher than needed |
| CardLife.UsedGrows | src-tauri/src/main.rs:294-300 | of all steps only a creation adds to the ids present or past, and only the id it draws |
| CardLife.FreshIffStretchFree | src-tauri/src/main.rs:294-300 | all creations of a run get unused ids exactly if the stretch they draw is unused at the start |
| CardLife.FreshFromBoot | src-tauri/src/main.rs:1254-1262 | from start-up on, no id in the table or past is issued, exactly if no loaded source id lies within the stretch drawn |
| CardLife.FreshInPractice | src-tauri/src/main.rs:1254-1262 | with other loaded ids below 2^62, fewer than 2^62 creations are always fresh |
| CardLife.FirstCreationMayOverwrite | src-tauri/src/main.rs:1254-1262 | two loaded ids at the border of the segments make the first creation overwrite a row |
| CardLife.StepMoves | src-tauri/src/main.rs:138-165 | no step but the ending of a cancelling card, with its clean-up then due, moves an ended or cancelling row to another state |
| CardLife.PassesOnlyLive | src-tauri/src/main.rs:482-511 | a recheck goes on after its look only if the parent was live at that moment |
| CardLife.StepSound | src-tauri/src/main.rs:138-529 | every engine, chunk, speed, child, edit, deletion and clean-up step, and either half of a recheck, keeps the life of all cards sound |
| CardLife.RunsAreSound | src-tauri/src/main.rs:138-529 | over every run, halves of rechecks interleaved: ids that left the table never return, ended rows never change state, a cancelled row that ended has its clean-up due, no look passes at a parent a recheck has ended |
| CardLife.ReportsWithinEarlyLooks | src-tauri/src/main.rs:479-529 | however rechecks of a parent overlap, it is reported at most as often as looks had found all children done before the first of them ended it |
| CardLife.OneReportOneAtATime | src-tauri/src/main.rs:479-529 | rechecks of one parent that do not overlap report it at most once |
| CardLife.BootIsSound | src-tauri/src/main.rs:1238-1262 | a loaded table is a sound start |
| CardLife.QuietTableIsClean | src-tauri/src/commands.rs:3528-3593 | once no clean-up is outstanding, no ended row in the table has ever been cancelling |
| Slots.Gate.Ask | src-tauri/src/main.rs:411-416 | a request joins the end of the gate's queue |
| Slots.Gate.Poll | src-tauri/src/main.rs:411-416 | the longest waiter gets a free permit, and only then asks for its peer's lock |
| Slots.Gate.Lock | src-tauri/src/main.rs:416-423 | a peer's lock goes to the first of that peer's waiters, when free |
| Slots.Gate.Finish | src-tauri/src/main.rs:404-410 | the lock, then the permit go back |
| Slots.Gate.GiveUp | src-tauri/src/commands.rs:600-617 | a waiter that times out gives back what it holds, at the gate or at the lock |
| Slots.StepSound | src-tauri/src/main.rs:411-424 | every step conserves permits, keeps queues exact and each peer's lock with its one running transfer, and brings one request nearer its end |
| Slots.RunsAreSound | src-tauri/src/main.rs:411-424 | over every run, and no schedule takes more steps than five for each request |
| Slots.SafeAlways | src-tauri/src/main.rs:411-424 | never more holders than permits, never two transfers with one peer |
| Slots.NoDeadlock | src-tauri/src/main.rs:411-424 | with at least one permit, while any request is unfinished a step other than giving up can be taken |
| Slots.EveryScheduleEnds | src-tauri/src/main.rs:1265-1266 | however the steps were scheduled, when none is left every request that did not give up was served, and all permits and locks are back |
| Slots.FirstComeFirstServed | src-tauri/src/main.rs:411-423 | on every run: while one that asked first waits for a permit a later one gets none, and while it waits for its peer's lock a later one of that peer does not get it |
| Slots.LockIff | src-tauri/src/main.rs:416-423 | a waiter can take its peer's lock exactly if no transfer with that peer runs and no waiter of that peer came before |
| Reconnect.BackoffSequence | crates/localtrans-core/src/connect_memory.rs:30-37 | the waits are 2, 4, 8, 16, then 30 seconds for ever, zero failures counting as one |
| Reconnect.JitterWithin | crates/localtrans-core/src/connect_memory.rs:46-50 | a wait stays within a fifth of its base, rounded, whatever the random number |
| Reconnect.JitterNearest | crates/localtrans-core/src/connect_memory.rs:46-50 | a random number between 0 and 1 spreads the wait evenly over that range, to the nearest second |
| Reconnect.ReconnectLoop | src-tauri/src/reconnect.rs:79-189 | the trace, beat by beat, from beats and history: exactly when a beat gives up, waits how long, looks, re-arms, attempts and exits, in that order; it ends in an exit exactly if a beat may not run, is taken or connects |
| Reconnect.BeatenShows | src-tauri/src/reconnect.rs:86-183 | a beat that may run, is not taken and finds the peer present makes one attempt if no notice is open or the peer was last seen absent, re-arming first in the latter case, and none otherwise; the notice comes on the first beat after five failures |
| Reconnect.StoryTold | src-tauri/src/reconnect.rs:79-183 | every trace is cut by its beats into stretches that show just that |
| Reconnect.StoryEnds | src-tauri/src/reconnect.rs:79-183 | a trace ends in an exit exactly if some beat may not run, is taken or connects |
| Reconnect.NoticeOpenIff | src-tauri/src/reconnect.rs:96-112 | a notice counts until a re-arming follows it |
| Reconnect.LastSeenAbsentIff | src-tauri/src/reconnect.rs:126-129 | the peer is last seen absent if every sighting is followed by an absence |
| Reconnect.RoundAttemptsCount | src-tauri/src/reconnect.rs:80-183 | the attempts of a round are those since the start or the last re-arming |
| Reconnect.TriedSteady | src-tauri/src/reconnect.rs:120-183 | the second half of a beat keeps the bounds, re-arming included |
| Reconnect.BeatenSteady | src-tauri/src/reconnect.rs:86-183 | a whole beat keeps them |
| Reconnect.StorySteady | src-tauri/src/reconnect.rs:79-183 | so does any number of beats |
| Reconnect.EveryTraceIsBounded | src-tauri/src/reconnect.rs:79-183 | at every event of every trace: at most five attempts and one notice a round, the notice after exactly five failures, re-arming only after the peer was seen absent since the notice and then present, waits within the round's backoff and 2 to 36 seconds, nothing after the exit |
| DeviceMerge.Collect | crates/localtrans-core/src/device_merge.rs:43-97 | the three loops fill the table with exactly the entries of the inputs, local over roster over trusted |
| DeviceMerge.FindStale | crates/localtrans-core/src/device_merge.rs:115-137 | in whatever order the table is walked, exactly the offline, stale entries with a namesake are found |
| DeviceMerge.InOrder | crates/localtrans-core/src/device_merge.rs:142-148 | in whatever order the rows come, the list is strictly sorted and has exactly them |
| DeviceMerge.MergeDevices | crates/localtrans-core/src/device_merge.rs:36-150 | the result is the visible devices, each once, strictly sorted by connected, online, name, fingerprint |
| DeviceMerge.BeforeTotal | crates/localtrans-core/src/device_merge.rs:143-148 | of two devices with different fingerprints exactly one comes first |
| DeviceMerge.BeforeTransitive | crates/localtrans-core/src/device_merge.rs:143-148 | the order is transitive |
| DeviceMerge.SortedUnique | crates/localtrans-core/src/device_merge.rs:142-148 | a set of devices has one sorted list |
| DeviceMerge.OneResult | crates/localtrans-core/src/device_merge.rs:36-150 | with distinct fingerprints per list and one instant, any two merges of the same devices agree, whatever the order of inputs and tables |
| DeviceMerge.LocalOverRosterOverTrusted | crates/localtrans-core/src/device_merge.rs:43-97 | which of the three sources a shown entry comes from |
| DeviceMerge.RowMeans | crates/localtrans-core/src/device_merge.rs:43-97 | each column of a listed row, read off the inputs: online within 30 seconds or by the relay, alias over name, address, connection and route |
| DeviceMerge.HiddenMeans | crates/localtrans-core/src/device_merge.rs:104-140 | which fingerprints are left out, read off the inputs: a day since seen locally, or since pairing, and a namesake; never one only the relay lists |
| DeviceMerge.PageOrder | crates/localtrans-core/src/device_merge.rs:142-148 | the connected come first, then the online, then by name and fingerprint |
| DeviceMerge.StrLessMeans | crates/localtrans-core/src/device_merge.rs:142-148 | names compare at the first character that differs, a proper prefix first |
| DeviceMerge.OmittedOnlyIfStaleNamesake | crates/localtrans-core/src/device_merge.rs:115-140 | a fingerprint is listed exactly if it is known and not offline, stale and sharing its shown name with another known one; no fingerprint is listed twice |
| DeviceMerge.TwoStaleHideEachOther | crates/localtrans-core/src/device_merge.rs:115-140 | two paired, stale devices of one name leave an empty list |

## Left out

- Sockets, TLS, certificates, the async runtime and real timers: delivery, loss, time-outs and clock values are explicit steps and parameters.
- JSON text, Ed25519 (section 5.1 of RFC 8032) and socket-address syntax: parameters with the laws that are used of them.
- SHA-256 of codes: an injective constructor; both peers run this program, so no foreign messages are injected.
- The rest of the control loop's messages (listings, offers, file operations): they do not touch session, consent or trust.
- Sending to a control stream that has closed, and its five-second limit: a message that never leaves the outbox.
- TrustRemoval.RegainsIffLeftover: counts a code found right as fresh consent, even if grant and code came before a removal; `NothingMeetsNoTrust` covers those, in one direction, because which of several codes meets a machine first depends on the schedule.
- Events and texts shown to the user other than SessionDown, the success report, the give-up notice and the batch toast.
- In `Cooldown.dfy` grant and the judging of a stored code are one step, and one connection is followed.
- The folder-pull byte path (`commands.rs:1270`), which counts bytes twice, and the error drain of `push_files` (`commands.rs:1146-1150`), which uses the single-file handler on a batch card: outside the accounts.
- `restore_disk_job` (`commands.rs:2661`) and folder resume (`commands.rs:2399`), which rewrite ids and ended states: not among the steps of `CardLife.dfy`.
- Files on disk: manifests, history, parts directories, `transfers.json`, `connect_memory.json`, and what a restart rebuilds from them.
- `AppState` holds card values instead of shared card objects; states and job ids of children are values instead of strings.
- CardLife.StepSound: takes the second half of a recheck as one step, though it reads and applies in up to four regions; each of those is an event step already among the rest.
- CardTable.AppState.DestroyTransfer: does not model the cancel flags, the word to the peer and the arming of the watchdog, which are outside the table.
- CardTable.AppState.SourceChunkAdd: does not model 64-bit overflow of the byte count, which a transfer cannot reach.
- CardTable.AppState.FinalizeDestroy: does not model the watchdog task, which `finalize_destroy` aborts even when it is that very task; the removal is one step.
- Which permit or lock the runtime hands out when several tasks wake at once: first come, first served.
- NaN as the random number, and rounding of the floating-point product: the jitter is computed over reals.
- The registry that keeps one reconnect task per device, and the memory file behind it: easy members.
- `sort_by` is an insertion into a sorted list; text compares by code point, as UTF-8 bytes do.
- Lower-casing is ASCII only, which decides the same fingerprints; white space and control characters are those of `Text.dfy`.
- The transfer engine, routing scores, relay, share listing, path checks, the Android state copy and the user interface.
