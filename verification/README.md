# Agent pairing, sessions and delivery: a verified model

This project models the parts of the repository that keep two agents in agreement, and proves what they
promise, in Dafny 4.11. `dafny verify dfyconfig.toml` checks all of it.

## What is modelled

**Sessions.** Each host keeps a record per thread and a queue of items that wait for its human.
`ThreadSteps`, `BudgetSteps` and `MachineSteps` say what each handler does to its thread, as functions:
new state, envelopes sent, reply. `SessionMachine` is the machine itself, an object whose methods
overwrite the store, the queue, the bonds, the allowlist and the outgoing mail step by step and loop over
them where the source does; each of its handlers is proved to do to its own thread exactly what the
function says and nothing to any other thread. `Queue` and `AtestGate` serve it. `ThreadInvariant`,
`ThreadRuns`, `NormativeRules`, `SignatureRule` and `ApprovalRule` prove what one machine keeps over whole
runs against arbitrary envelopes. `NoticeRule`, `StatusRule`, `CoSignRule`, `QueueRule` and `BudgetReplies`
tell the machine once more by what changes instead of by handler: which events are accepted and what the peer
is told of each, which event moves the status, what seals a record, and when a human is asked. `SampleRuns`
starts the concrete counterexamples from an empty machine; `MachineSafety` carries the invariant over to the
object.

**Two linked sessions.** `TwoParty` joins two machines by two FIFO channels: any handler of either side,
with its send succeeding or failing, or the delivery of the oldest envelope, may come next.
`StepEffects` and `OpeningProofs` prove the opening handshake. `BudgetProtocol` and `BudgetProofs` treat
budget extension as an agreement protocol of its own, with the crossing race and retried sends;
`BudgetRefinement` and `BudgetAgreement` prove that the two machines simulate it, and
`TwoPartyTheorems` and `BudgetGate` state what follows. `LinkedRuns` shows that the handshake, the signing and
the ratification get through.

**Pairing.** `PairingFlow` models the joiner's and the initiator's program as control points, one await at
a time, over one relay slot that may be overwritten at any moment by anything an outsider can derive, text
that does not parse included; any call to the relay may throw.
`PairingPrograms` holds the two programs in sequential form on a host object, proved to pass through
exactly those control points, as `PairingRuns` runs them and `PairingLedger` keeps their books.
`PairingAgreement` proves agreement, all-or-nothing allowlists and what an honest slot adds,
`PairingMilestones` what takes either side past each step, and `PairingRefusal` what a human's refusal does. `PairingRegistry` is the code registry with its tombstones, `PairingPreimages` the
byte strings under fingerprints and tags, `Profiles` the profile intersection.

**Delivery.** `Receive` holds the ordered checks and the per-stream sequence store, `RelayInbox` the
append-only inbox with its cursor, `InboxClient` the pull, `ThreadSeq` the sender's numbers;
`Delivery` puts them together.

**Limits and bytes.** `RateLimit` is the fixed-window limiter with eviction, `Utf8` the strict and the lossy
decoder and the truncation of peer text, `Base64` and `Json` the codecs, `Spillover` the size arithmetic of
envelopes and the artifact round trip on real bytes.

## Assumptions

- A handler is atomic, and sends on one thread do not overlap.
- A send that answers not-ok has queued nothing. Without this budget agreement fails: an approval that
  arrives while the proposal is still `emitting` is dropped (packages/protocol/src/session/budget-extend.ts:599).
- Queue ids, thread ids, proposal ids and envelope ids are fresh where the source draws a UUID. Clocks do
  not go back where a lemma says so; elsewhere any clock reading is allowed.
- No envelope names the receiving machine as its sender.
- Between two linked machines the channels are FIFO, authenticated and loss-free. Results about one
  machine (`ThreadRuns`, `NormativeRules`, `Receive`) need none of this.
- Keys, fingerprints, tags and seals are symbolic: equal only if made from equal parts; of the artifact hash
  nothing is assumed. Two keys of the pairing exchange are equal only if code and both messages were, and nobody outside can compute a
  key one of the two programs took part in. `PairingPreimages` proves the injectivity of the byte strings
  under fingerprints and tags.
- During a pairing flow nobody else changes the host's allowlist.
- `max_turns` and `seq` are integers, deadlines are already parsed, and an envelope that fails to parse or
  has an unknown type is one kind, `Malformed`.

## Where code and documents differ

The model follows the code. `NormativeRules`, `SignatureRule`, `ApprovalRule` and `BudgetGate` go through the
numbered session rules N1 to N7 of the repository's protocol document. Where a rule fails there is a run from
an empty machine, or a concrete input, and the exact condition.

- Rule N2 wants identical hashes for `signed`, and no later signature to supersede an earlier one silently. The
  code asks only that both hashes are present (packages/protocol/src/session/state-machine.ts:103-105) and
  overwrites a role's own (packages/protocol/src/session/state-machine.ts:792-806).
  `SignatureRule.AgreeIffLastSignedAgree` and `SignatureRule.EarlierHashSurvivesIff` are the exact conditions,
  `SignatureRule.SignedOnDifferentHashes` and `SignatureRule.LaterHashSupersedes` the runs.
- The transition table knows no way from `signed` back to `live`; a repeated approval notice of the recipient,
  and nothing else, takes it (`NormativeRules.SignedWakesIff`, `NormativeRules.SignedWakes`), though never
  between two honest machines (`TwoPartyTheorems.SignedNeverReopens`).
- The number in an incoming approval is not compared with the number that was proposed
  (packages/protocol/src/session/budget-extend.ts:590-609), so the peer may set any larger budget
  (`ApprovalRule.AnswerKeepsTheNumberIff`, `ApprovalRule.AnswerMayOvershoot`); between honest sides the two
  numbers agree, which `TwoPartyTheorems.BudgetsAgree` includes.
- Rule N6 wants the turn count of the wire; a turn whose send failed counts and a refused one does not
  (`NormativeRules.CountIsTheWiresIff`, `NormativeRules.UnsentTurnCounts`).
- The protocol document has the bond phase roll allowlists back on failure and codes be single-use. A slot text
  that does not parse, read after the initiator's push, throws past both: the peer stays in the allowlist and
  the code is not burnt (`PairingAgreement.AllOrNothingUnlessGarbled`, `PairingAgreement.GarbledLookLeavesThePeer`,
  `PairingRegistry.UnburntIsLive`).
- An initiator may end bonded while the joiner does not. The protocol document accepts this when a reply is lost;
  `PairingAgreement.WhenTheJoinerFollows` is the exact condition on an honest slot, and a refused push of the
  joiner is a second way (`PairingAgreement.InitiatorMayMissTheRefusal`).
- The protocol document calls delivery at-least-once; with an honest relay the receiver's side is exactly-once
  as long as no pull skips over a due row (`Delivery.ExactlyOnce`, `Delivery.SkipIsHarmlessIff`).
- A joiner's entry past its expiry is meant to be tombstoned so that later joins stay blocked
  (packages/mcp-server/src/tools/pair.ts:163). The tombstone is as old as the entry and purged at once, so it
  blocks nothing (`PairingRegistry.ExpiredEntryBlocksNothing`); and a relay that answers with a manifest of
  another code makes the join succeed with nothing to start (`PairingRegistry.RejoinAnswersStartableIff`).
- Two ratifications seal a record unless the peer has meanwhile signed an empty hash
  (`CoSignRule.CoSignedIffBothRatified`, `CoSignRule.EmptyHashIsNotCoSigned`).
- A payload that is a JSON object with a top-level `spill` key of its own does not survive the round trip
  although it was never spilled (`Spillover.RoundTrip`, `Spillover.OwnMarkerIsRefused`).
- Truncation drops a leading byte order mark (`Utf8.TruncationIsLongestPrefixIff`).
- Ratifying a thread directly, not through a queued item, can co-sign a session closed as `bond_revoked`
  once the peer has ratified (`ThreadRuns.BarredStep`, `NormativeRules.RevokedIsCoSigned`), and can replace the
  hash of a co-signed one (`NormativeRules.CoSignedHashStaysIff`).

## Model

| member | source | states |
|---|---|---|
| `TwoPartyTheorems.BudgetsAgree` | packages/protocol/src/session/budget-extend.ts:127-651 | For every run of two linked machines: with both sessions live the turn budgets are equal, or exactly the larger one was raised by approving the other side's proposal, whose own extension still awaits that very id and number, with the approval unsent or under way |
| `TwoPartyTheorems.NothingOutstandingNothingApart` | packages/protocol/src/session/budget-extend.ts:199-414 | With both sessions live and neither side awaiting an answer the budgets are equal, also after a crossing race and after failed and retried sends |
| `TwoPartyTheorems.DecisionsConsistent` | packages/protocol/src/session/budget-extend.ts:38-52 | In every reachable pair of states no proposal id is approved on one side and rejected on the other, and each side records an id at most once |
| `TwoPartyTheorems.QueuedIsUndecided` | packages/protocol/src/session/budget-extend.ts:466-532 | A queued numbered item never carries an id its own side has already decided |
| `BudgetGate.NoRaiseWithoutBothHumans` | packages/protocol/src/session/budget-extend.ts:199-290 | Whenever either side's turn budget rises, a proposal not decided there before becomes approved there, and earlier in the run (or by this move) the proposer's human let that proposal go and the other side's human approved it |
| `BudgetGate.ApprovedMeansBothHumans` | packages/protocol/src/session/budget-extend.ts:199-290 | A proposal recorded as approved on either side was approved by a human on both sides |
| `TwoPartyTheorems.LiveOnlyBehindTheGate` | packages/protocol/src/session/state-machine.ts:506-535 | An initiator session is live or signed only if, earlier in the run, the recipient's human approved the very item queued for this opening, the handler accepted it, and the item showed the same goal, acceptance, mandate and deadline; both records hold these, and no later run of either side changes them |
| `OpeningProofs.OpenedStep` | packages/protocol/src/session/test-helpers.ts:195-296 | Every move of the linked pair (any handler of either side, any delivery) keeps the opening invariant: same terms, nothing but the opening under way while the recipient has not decided, approval only behind the gate |
| `BudgetAgreement.RelStep` | packages/protocol/src/session/budget-extend.ts:127-651 | Every move of the two machines is a step of the abstract budget protocol or leaves it where it is (simulation) |
| `BudgetRefinement.LoudPropose` | packages/protocol/src/session/budget-extend.ts:434-560 | On a live session within its deadline the incoming-proposal handler does to the side's protocol view exactly what the protocol step does, message for message: ignored, race won, race lost, queued |
| `BudgetRefinement.LoudApprove` | packages/protocol/src/session/budget-extend.ts:199-290 | Approving a queued item emits an own draft or raises the budget and answers the peer, exactly as the protocol step says, whether or not the send works |
| `BudgetRefinement.VerdictsExact` | packages/protocol/src/session/budget-extend.ts:38-52 | With ids decided once, the decision list and the verdict map say the same of every id and verdict, in both directions |
| `BudgetProofs.BothOnPropose` | packages/protocol/src/session/budget-extend.ts:434-560 | Receiving any proposal, crossing an own one or not, keeps the two-sided protocol invariant |
| `BudgetProofs.BothApprove` | packages/protocol/src/session/budget-extend.ts:236-289 | Approving a peer's proposal keeps the two-sided invariant, with the send succeeding or failing |
| `BudgetProofs.BothRetry` | packages/protocol/src/session/budget-extend.ts:351-414 | A retried send keeps the two-sided invariant |
| `BudgetProofs.BothOnApprove` | packages/protocol/src/session/budget-extend.ts:562-611 | Receiving any approval, awaited or stale, keeps the two-sided invariant |
| `BudgetProofs.BothOnReject` | packages/protocol/src/session/budget-extend.ts:613-651 | Receiving a rejection, also one that finds nothing outstanding, keeps the two-sided invariant |
| `TwoPartyTheorems.SignedNeverReopens` | packages/protocol/src/session/state-machine.ts:654-672 | Between two honest machines a signed session never goes back to live in one more move of any run |
| `BudgetProofs.UndisturbedRaise` | packages/protocol/src/session/budget-extend.ts:199-290 | Left alone, a proposal the other side approves raises both budgets to its number and leaves nothing outstanding |
| `BudgetProofs.CrossingRaceSettles` | packages/protocol/src/session/budget-extend.ts:487-534 | Two crossing proposals leave the initiator's own outstanding and queued at the recipient, and the recipient's recorded as rejected on both sides |
| `BudgetProofs.UndisturbedReject` | packages/protocol/src/session/budget-extend.ts:292-349 | Left alone, a proposal the other side rejects leaves both budgets alone and nothing outstanding, and is recorded as rejected on both sides |
| `BudgetProofs.RetryIsALateSend` | packages/protocol/src/session/budget-extend.ts:351-414 | A proposal, approval or rejection whose send failed and that goes through on a retry leaves exactly what a send that went through at once leaves |
| `BudgetProofs.DroppedDraftIsGone` | packages/protocol/src/session/budget-extend.ts:292-349 | A draft of one's own that the human turns down is as if it had never been drafted |
| `BudgetProofs.NewProposalIsTakenUp` | packages/protocol/src/session/budget-extend.ts:487-560 | A proposal not heard of before and for more turns is never left lying: an initiator with an own one out refuses it, every other side queues it, whatever it had queued or outstanding |
| `BudgetReplies.ExtendAnswered` | packages/protocol/src/session/budget-extend.ts:157-197 | A draft is accepted if and only if the session is live in time, nothing is outstanding, no offer of the peer waits and the number is above the budget; it is then the one queued item and nothing is sent |
| `BudgetReplies.ApprovalAnswered` | packages/protocol/src/session/budget-extend.ts:199-290 | What the human's approval is answered and what goes out, proposal or agreement, with thread, id and number; a failed send keeps these very bytes to be sent |
| `BudgetReplies.RejectionAnswered` | packages/protocol/src/session/budget-extend.ts:292-349 | A rejection drops a draft or numberless item silently, and tells the peer of its own offer with the given reason or the default one; a failed send keeps these bytes |
| `BudgetReplies.RetryAnswered` | packages/protocol/src/session/budget-extend.ts:351-414 | A retry sends the stored envelope if and only if one is due and the relay takes it, and otherwise changes nothing |
| `LinkedRuns.OpeningComesThrough` | packages/protocol/src/session/state-machine.ts:440-578 | Two linked machines from the start: opening, delivery, the verdict of the recipient's human and delivery, with sends that work, make both sides live on the proposed terms, or both rejected for the given reason; a verdict after the expiry makes both expired; nothing stays under way |
| `LinkedRuns.CoSigningComesThrough` | packages/protocol/src/session/state-machine.ts:1017-1135 | Two linked machines from the start through opening, both signatures and both ratifications, every envelope delivered before the deadline: both records end closed and co-signed on the same hash, ratified by both roles, each signed by its own machine |
| `ThreadInvariant.StepGood` | packages/protocol/src/session/state-machine.ts:145-250 | Every event, with arbitrary envelopes from any peer, keeps the thread invariant (approval item only for a pending recipient session and with its terms, at most one budget item and none beside an own extension, numbered items above the budget, co-sign rules) and takes back no terms, decisions, turns, budget or ended status |
| `ThreadRuns.RunKeeps` | packages/protocol/src/session/state-machine.ts:440-1283 | The same over whole runs: the invariant holds after every run and nothing it protects is taken back |
| `ThreadRuns.TerminalAbsorbs` | packages/protocol/src/session/state-machine.ts:41-54 | No run leaves closed, open_rejected and open_expired, and none leaves closed; the terms stay as they are |
| `ThreadRuns.BudgetRisesAndBoundsTurns` | packages/protocol/src/session/budget-extend.ts:66-115 | Over any run max_turns never falls and turnCount never exceeds it (when non-negative); never two budget items, none beside an own extension, and every numbered item of a live session is above the current budget |
| `ThreadRuns.TermsFrozen` | packages/protocol/src/session/state-machine.ts:358-436 | The terms, participants and expiry a session was first stored with never change in any later run, but for the turn budget |
| `ThreadRuns.ApprovalItemShowsTerms` | packages/protocol/src/session/state-machine.ts:177-200 | A queued approval item is the only one of its thread, belongs to a pending recipient session and shows exactly that record's terms, expiry and initiator |
| `ThreadRuns.CoSignSafe` | packages/protocol/src/session/state-machine.ts:337-356 | After any run a co-signed record is closed, co-signed on its artifact hash, signed by this machine on that hash, and ratified by both roles |
| `ThreadRuns.RevokeBars` | packages/protocol/src/session/state-machine.ts:1196-1247 | Revoking the bond bars every session with the peer that had not ended: closed as bond_revoked, without queued ratification and not co-signed |
| `ThreadRuns.BarredStep` | packages/protocol/src/session/state-machine.ts:1069-1135 | One event on a barred session co-signs it exactly if it is a human's direct ratification by thread, with a hash at hand and the peer already ratified; every other event leaves it barred |
| `ThreadRuns.RevokedNeverCoSigned` | packages/protocol/src/session/state-machine.ts:1196-1247 | No run in which ratifications name a queued item co-signs a revoked session |
| `ThreadRuns.SetThenGet` | packages/protocol/src/session/test-reports.ts:53-72 | Recording a report changes the one slot of its hash, runner and role and no other |
| `ThreadRuns.ReportsAreTheLastFiled` | packages/protocol/src/session/state-machine.ts:293-325 | After any run each report slot holds the last report its own role filed for that hash and runner, read off the run alone |
| `ThreadRuns.PeerCannotSpeakForUs` | packages/protocol/src/session/state-machine.ts:729-909 | No envelope of a peer changes the local role's challenge, signature, ratification or any of its reports |
| `ThreadRuns.SignGate` | packages/protocol/src/session/state-machine.ts:1017-1049 | A sign is accepted if and only if the session is live or signed within its deadline and, under an active gate, both challenges are filed and both roles' reports on that hash pass for every executable runner |
| `NoticeRule.EventsAsRuled` | packages/protocol/src/session/state-machine.ts:440-1283 | Over all events but the budget extension's: each is accepted if and only if one table of conditions on session, queue and surroundings admits it; the peer is then told exactly the event's own notice (opening, approval, rejection with its reason, turn, challenge, report, hash, ratification), otherwise nothing but the expiry of an opening that is found too late, and nothing at all when the relay refuses |
| `NoticeRule.SaidIsSo` | packages/protocol/src/session/state-machine.ts:254-325 | Whatever a machine tells its peer, its own record then says the same: the terms opened with, the verdict and its reason, one more turn, the challenge, the very report, the very hash, the ratification |
| `NoticeRule.ChallengersGrow` | packages/protocol/src/session/state-machine.ts:729-747 | Over all events: the roles that have challenged grow by exactly the one whose challenge is accepted |
| `StatusRule.StatusMovesIff` | packages/protocol/src/session/state-machine.ts:358-1283 | The status chart: over all events, budget included, a session comes to a status it is not in if and only if the event leads there (into closed by the deadline, a revocation, a request or the second ratification), and what reject reason it carries afterwards |
| `CoSignRule.CoSignedIff` | packages/protocol/src/session/state-machine.ts:1119-1128 | Over all events: the record is sealed if and only if one role's ratification is accepted while the other's is already there, by item, given or recorded hash; it is then closed and co-signed on that hash, signed here, and the ephemeral bond goes; no other event touches co-signed hash, signatures or bond, and the ratified roles grow by exactly the accepted ratifications |
| `CoSignRule.RecordedHashIs` | packages/protocol/src/session/state-machine.ts:776-822 | Over all events: the recorded artifact hash becomes the one sealed on, else the one an accepted signature is over, else stays |
| `CoSignRule.RatifiedAreTheRatifiers` | packages/protocol/src/session/state-machine.ts:873-909 | After any run exactly the roles whose ratification was accepted in it are recorded as ratified, read off the run alone |
| `CoSignRule.CoSignedIffBothRatified` | packages/protocol/src/session/state-machine.ts:337-356 | After any run in which no accepted signature is over an empty hash, the record is co-signed if and only if both roles' ratifications were accepted in it |
| `CoSignRule.EmptyHashIsNotCoSigned` | packages/protocol/src/session/state-machine.ts:895-905 | The condition is needed: a run from an empty machine in which both roles ratified and, the peer having signed an empty hash in between, the session stays signed and unsealed |
| `QueueRule.OpeningItemIff` | packages/protocol/src/session/state-machine.ts:177-200 | After any run the queue holds one opening item, on the session's own terms, if and only if a proposed session waits for this side's human |
| `QueueRule.StartsFresh` | packages/protocol/src/session/state-machine.ts:388-436 | A record starts blank, dated by its own machine's clock, and its opening lasts one hour |
| `QueueRule.OpeningLastsOneHour` | packages/protocol/src/session/state-machine.ts:440-502 | After any run the opening of a stored session expires one hour after it was stored, whatever happened since |
| `QueueRule.SignedAsks` | packages/protocol/src/session/state-machine.ts:1051-1064 | Whichever event makes a session signed, the human of a bonded side has an item to ratify with, on the recorded hash unless an older one was still queued |
| `QueueRule.RatifyItemComesBack` | packages/protocol/src/session/state-machine.ts:220-252 | Reading the status or looking the item up leaves an item in the queue whenever the ratification is still due, on the recorded hash if there was none |
| `QueueRule.ExhaustedTurnAsks` | packages/protocol/src/session/budget-extend.ts:98-115 | A turn of either side refused because the turns are used up leaves an extension under way or an item in the queue |
| `QueueRule.CloseEnds` | packages/protocol/src/session/state-machine.ts:1249-1283 | Closing a thread ends a session that had not ended, with a reason, and drops what its humans were asked: the opening item, the ratify item of a signed session, the budget business of a live one |
| `QueueRule.SweepKeepsWhatIsWanted` | packages/protocol/src/session/state-machine.ts:580-617 | The sweep leaves the opening item exactly to a session still waiting for its verdict, and drops the ratify item exactly of one that is closed or ratified here |
| `ApprovalRule.RaisedOnlyBy` | packages/protocol/src/session/budget-extend.ts:562-611 | On one machine, over all events and arbitrary envelopes: the turn budget changes if and only if this side's human approves the peer's queued offer, then to its number, or a participant answers this side's own awaited proposal by its id, then to the number in the answer |
| `ApprovalRule.AnswerKeepsTheNumberIff` | packages/protocol/src/session/budget-extend.ts:590-609 | The budget set by an accepted approval is the number this side proposed if and only if the approval repeats it; only the own awaited id is accepted |
| `ApprovalRule.AnswerMayOvershoot` | packages/protocol/src/session/budget-extend.ts:590-609 | A run from an empty machine in which the human approved a raise to 5 and the accepted answer raises to 1000000 |
| `NormativeRules.RedeliveryChangesNothing` | packages/protocol/src/session/state-machine.ts:366-386 | A redelivered opening, from anybody and with any terms, changes no stored session |
| `SignatureRule.SecondSignatureSigns` | packages/protocol/src/session/state-machine.ts:103-105 | A signature makes a live session signed if and only if it and a recorded one of the other role carry a hash |
| `SignatureRule.AgreeAfterSignature` | packages/protocol/src/session/state-machine.ts:1037-1049 | Whoever signs and in whatever state, the two recorded hashes agree afterwards if and only if the other role had signed this very hash |
| `SignatureRule.BecomesSignedIff` | packages/protocol/src/session/state-machine.ts:776-822 | Over all events: a session becomes signed only by an accepted signature, of either role, on top of one of the other role, and then keeps the identical-hash rule if and only if that one was over the same hash |
| `SignatureRule.EarlierHashSurvivesIff` | packages/protocol/src/session/state-machine.ts:792-806 | The rule's second half: an accepted signature of a role silently takes the place of its earlier one, which survives if and only if it was over the same hash; the other role's stays |
| `SignatureRule.HashesAreTheLastSigned` | packages/protocol/src/session/state-machine.ts:776-822 | After any run each role's recorded hash is the last one it signed, read off the run alone |
| `SignatureRule.AgreeIffLastSignedAgree` | packages/protocol/src/session/state-machine.ts:103-105 | After any run the two recorded hashes agree if and only if the last hash each role signed is one and the same non-empty hash |
| `SignatureRule.SignedOnDifferentHashes` | packages/protocol/src/session/state-machine.ts:103-105 | A run from an empty machine to a session signed on two different hashes, against the rule's first half |
| `SignatureRule.LaterHashSupersedes` | packages/protocol/src/session/state-machine.ts:792-806 | A run from an empty machine to a session properly signed on one hash, and the peer's next signature, accepted, that leaves it signed on two, against the second half |
| `NormativeRules.ApprovalNoticeWakesUnlessEnded` | packages/protocol/src/session/state-machine.ts:654-672 | An approval notice of the recipient leaves the session live if and only if it had not ended |
| `NormativeRules.SignedWakesIff` | packages/protocol/src/session/state-machine.ts:654-672 | Over all events: one step takes a signed session back to live if and only if it is an approval notice that comes from the recipient |
| `NormativeRules.SignedWakes` | packages/protocol/src/session/state-machine.ts:654-672 | A run from an empty machine that takes this way |
| `NormativeRules.CoSignedHashStaysIff` | packages/protocol/src/session/state-machine.ts:1069-1135 | Over all events: a co-signed hash stays if and only if the event is not a human's ratification, of the thread or of an item still queued, on another hash |
| `NormativeRules.OutsiderChangesNothing` | packages/protocol/src/session/state-machine.ts:64-75 | An envelope of a non-participant leaves a stored session as it is, but for the local deadline, sends nothing and removes no bond; it is answered not_a_participant, unless it is malformed, an opening, or a budget message to a session not live or naming another thread, whose own answers are stated |
| `NormativeRules.RevokeClosesAndKeepsEvidence` | packages/protocol/src/session/state-machine.ts:1196-1247 | Revocation closes every session with the peer that had not ended, drops every item queued for it and an extension under way, and keeps sign hashes, signatures, ratifications and the co-signed hash |
| `NormativeRules.RevokedIsCoSigned` | packages/protocol/src/session/state-machine.ts:1069-1135 | A run from an empty machine, signed by both, ratified by the peer and revoked, that a direct ratification then co-signs |
| `NormativeRules.TurnCountIsDerived` | packages/protocol/src/session/state-machine.ts:842-870 | Over any run the turn count is the number of turns accepted in either direction, and no other event moves it |
| `NormativeRules.CountIsTheWiresIff` | packages/protocol/src/session/state-machine.ts:842-870 | Over any run the turn count is the turn envelopes sent and received, plus own turns whose send failed, minus turns refused; so it is the number on the wire, as the rule wants, if and only if the last two are equally many |
| `NormativeRules.UnsentTurnCounts` | packages/protocol/src/session/state-machine.ts:978-1013 | A run from an empty machine with a counted turn that never went out |
| `NormativeRules.DeadlineCloses` | packages/protocol/src/session/state-machine.ts:161-175 | The first envelope or sweep after the deadline closes a live session as deadline_expired and drops its budget business, whatever the envelope says |
| `NormativeRules.SweepLeavesNothingOverdue` | packages/protocol/src/session/state-machine.ts:580-617 | After the sweep no session is live past its deadline or pending past its opening |
| `SessionTypes.AppendKeepsOnce` | packages/protocol/src/session/budget-extend.ts:38-52 | Recording a decision keeps every id decided at most once and makes exactly the new id known |
| `SessionMachine.Machine.EnsureLiveNotExpired` | packages/protocol/src/session/state-machine.ts:161-175 | Closes the stored session past its deadline and sweeps its budget business, exactly as the thread function says; every other thread, the mail, the bonds and the allowlist stay |
| `SessionMachine.Machine.EnsureRecipientOpenPending` | packages/protocol/src/session/state-machine.ts:177-200 | Requeues a lost approval item, or lets the opening expire, for this thread only |
| `SessionMachine.Machine.EnsureRatifyPending` | packages/protocol/src/session/state-machine.ts:220-252 | Requeues a lost ratify item under the source's guards, for this thread only |
| `SessionMachine.Machine.RemoveBudgets` | packages/protocol/src/session/budget-extend.ts:66-72 | The loop over a snapshot of the queue removes every budget item of the thread and no other item |
| `SessionMachine.Machine.GuardTurns` | packages/protocol/src/session/budget-extend.ts:98-115 | Answers whether a turn is left; without one and without extension it queues one numberless item unless one is queued |
| `SessionMachine.Machine.FinalizeSession` | packages/protocol/src/session/state-machine.ts:327-356 | Stores the co-signed record and removes bond and allowlist entry of the peer exactly if the bond is ephemeral |
| `SessionMachine.Machine.HandleOpen` | packages/protocol/src/session/state-machine.ts:440-502 | New state, mail and reply of opening a session equal the thread function's on the old state; nothing else changes |
| `SessionMachine.Machine.HandleIncomingOpen` | packages/protocol/src/session/state-machine.ts:358-436 | The same for a received opening, in all four branches |
| `SessionMachine.Machine.HandleApproveOpen` | packages/protocol/src/session/state-machine.ts:506-535 | The same for approving a queued opening, found by its id among all queue items; NoticeRule.EventsAsRuled and StatusRule.StatusMovesIff say what that is: accepted if and only if queued and in time, live, and told to the initiator |
| `SessionMachine.Machine.HandleRejectOpen` | packages/protocol/src/session/state-machine.ts:537-578 | The same for rejecting a queued opening |
| `SessionMachine.Machine.HandleExpireSessions` | packages/protocol/src/session/state-machine.ts:580-617 | Both loops of the sweep together do to every thread what the thread's sweep function says, and each thread's mail grows by its own notice only |
| `SessionMachine.Machine.HandleIncomingEnvelope` | packages/protocol/src/session/state-machine.ts:619-934 | Every kind of envelope does to its own thread exactly what the thread function says, and nothing to any other thread |
| `SessionMachine.Machine.AnswerOpening` | packages/protocol/src/session/state-machine.ts:654-728 | Approval, rejection and expiry notices of an opening, with their different tolerance for sessions that have ended |
| `SessionMachine.Machine.PeerRatified` | packages/protocol/src/session/state-machine.ts:873-909 | A peer's ratification, and the co-sign it may complete |
| `SessionMachine.Machine.HandleTurn` | packages/protocol/src/session/state-machine.ts:938-1015 | A said turn: deadline, status, budget guard and form in this order, then one turn counted and sent |
| `SessionMachine.Machine.HandleChallenge` | packages/protocol/src/session/state-machine.ts:956-974 | A filed challenge goes into the local role's slot and out to the peer, if the bond supports it |
| `SessionMachine.Machine.RecordTestReport` | packages/protocol/src/session/state-machine.ts:293-325 | A filed report goes into the local role's slot and out to the peer |
| `AtestGate.CollectRunners` | packages/protocol/src/session/atest-gate.ts:19-27 | The loop collects exactly the named runners of executable criteria |
| `AtestGate.SignCeremonyComplete` | packages/protocol/src/session/atest-gate.ts:29-51 | The loop with early return answers whether both challenges are filed and both roles passed for every required runner, vacuously without an active gate |
| `SessionMachine.Machine.HandleSign` | packages/protocol/src/session/state-machine.ts:1017-1067 | Gate, recorded hash, the step to signed with its budget sweep, notice and ratify item equal the thread function's |
| `SessionMachine.Machine.HandleRatify` | packages/protocol/src/session/state-machine.ts:1069-1135 | Ratifying by thread or by queued item, the item then fixing the hash, and the co-sign it may complete, as the thread function; CoSignRule.CoSignedIff says when it does and what it leaves |
| `SessionMachine.Machine.HandleStatus` | packages/protocol/src/session/state-machine.ts:1157-1194 | Reading the status closes an overdue session and requeues a lost item, and changes nothing else |
| `SessionMachine.Machine.ResolveOpenPending` | packages/protocol/src/session/state-machine.ts:1137-1143 | Looking an approval item up requeues a lost one or lets the opening expire |
| `SessionMachine.Machine.ResolveRatifyPending` | packages/protocol/src/session/state-machine.ts:1145-1151 | Looking a ratify item up requeues a lost one |
| `SessionMachine.Machine.HandleBondRevoke` | packages/protocol/src/session/state-machine.ts:1196-1247 | Both loops of a revocation together do to every thread what the thread's revocation function says, and keep pairing items |
| `SessionMachine.Machine.HandleThreadClose` | packages/protocol/src/session/state-machine.ts:1249-1283 | Closing a thread: the reason kept, the items dropped per status, ended sessions untouched |
| `SessionMachine.Machine.HandleExtendBudget` | packages/protocol/src/session/budget-extend.ts:157-197 | Drafting an extension: refused while one is outstanding or not above the budget, else one numbered item replaces what was queued |
| `SessionMachine.Machine.EmitBudget` | packages/protocol/src/session/budget-extend.ts:127-154 | Stores the envelope bytes, sends, and moves on only if the send worked |
| `SessionMachine.Machine.HandleApproveBudgetExtend` | packages/protocol/src/session/budget-extend.ts:199-290 | The human's approval of a queued budget item, own draft or peer's proposal |
| `SessionMachine.Machine.HandleRejectBudgetExtend` | packages/protocol/src/session/budget-extend.ts:292-349 | The human's rejection of a queued budget item |
| `SessionMachine.Machine.RetryBudgetExtendEmit` | packages/protocol/src/session/budget-extend.ts:351-414 | The retry of a stored envelope; a failed send leaves everything as it was |
| `SessionMachine.Machine.HandleIncomingBudgetPropose` | packages/protocol/src/session/budget-extend.ts:434-560 | A received proposal: stale, known, queued or awaited ones are dropped, a crossing one is settled, any other is queued |
| `SessionMachine.Machine.ResolveRace` | packages/protocol/src/session/budget-extend.ts:487-534 | The crossing race: the initiator rejects the peer's proposal and keeps its own, the recipient rejects its own and queues the peer's |
| `SessionMachine.Machine.HandleIncomingBudgetApproved` | packages/protocol/src/session/budget-extend.ts:562-611 | A received approval raises the budget only for the awaited own proposal |
| `SessionMachine.Machine.HandleIncomingBudgetReject` | packages/protocol/src/session/budget-extend.ts:613-651 | A received rejection drops the matching extension and records the decision |
| `MachineSafety.HandlerKeepsSound` | packages/protocol/src/session/state-machine.ts:440-1283 | A machine whose every thread satisfies the invariant still does after any handler, and no thread loses what the invariant protects |
| `MachineSafety.RevokeKeepsSound` | packages/protocol/src/session/state-machine.ts:1196-1247 | So it does after a revocation, which leaves no session with the peer open and nothing of it to ratify |
| `MachineSafety.SweepKeepsSound` | packages/protocol/src/session/state-machine.ts:580-617 | So it does after the periodic sweep |
| `MachineSafety.OpenHearRevoke` | packages/protocol/src/session/state-machine.ts:1196-1247 | Opening, hearing any envelope and revoking, called one after another on the machine object: every thread stays sound, nothing is taken back, and the opened session has ended |
| `PairingAgreement.JoinerBondAgrees` | packages/protocol/src/pairing/flow.ts:476-558 | Whatever the relay does: a bonded joiner had an initiator that passed its fingerprint check under the same key, code, ids and profile lists and pushed its allowlist; the bond's peer and profiles are the real initiator and the common profiles, core among them; the two ids differ |
| `PairingAgreement.InitiatorBondAgrees` | packages/protocol/src/pairing/flow.ts:646-719 | The converse: a bonded initiator had a joiner that confirmed that same view |
| `PairingAgreement.RolledBackOnlyAfterVerification` | packages/protocol/src/pairing/flow.ts:476-719 | A side rolls back only after its own verification passed; anything earlier fails otherwise |
| `PairingAgreement.InitiatorAccepts` | packages/protocol/src/pairing/flow.ts:644-663 | A fingerprint the initiator accepts is the joiner's own, so both views are one |
| `PairingAgreement.JoinerAcceptsTag` | packages/protocol/src/pairing/flow.ts:534-558 | A tag the joiner accepts from another id under its key proves the initiator's push; the own-id filter stops a reflected one |
| `PairingAgreement.AllOrNothing` | packages/protocol/src/pairing/flow.ts:560-797 | At every end with a result the allowlist is the old one plus the peer exactly if the result is bonded, else the old one; an end by exception, from an unparsable text, an invalid point or a failing call to the relay, keeps the peer without a bond exactly if it came after the push and before an undo |
| `PairingAgreement.AllOrNothingUnlessGarbled` | packages/protocol/src/pairing/flow.ts:756-783 | When every call to the relay returns, each end of either flow, by result or exception, is all or nothing, except exactly when the initiator read a text that does not parse in one of its two looks after the push |
| `PairingAgreement.GarbledLookLeavesThePeer` | packages/protocol/src/pairing/flow.ts:756-783 | Runs, one for each look, in which a tampered slot throws the initiator out: its allowlist keeps the peer, it has no bond, and the joiner bonds |
| `PairingAgreement.HonestReliableNeverThrows` | packages/protocol/src/pairing/flow.ts:291-312 | Without tampering and failing calls neither program ends by exception |
| `PairingAgreement.HonestJoinerBondStands` | packages/protocol/src/pairing/flow.ts:560-797 | On an honest slot, with calls failing or not, a joiner bonds only after the initiator's push went through, and that initiator never rolls back: it ends bonded on the same profiles or, by a failing call, with the peer in its allowlist |
| `PairingAgreement.UndisturbedPairingBonds` | packages/protocol/src/pairing/flow.ts:398-797 | With one code, the right manifest and a common core profile there is an undisturbed run in which both sides bond |
| `PairingAgreement.WhenTheJoinerFollows` | packages/protocol/src/pairing/flow.ts:534-582 | On an honest slot, once the initiator has bonded and the joiner has ended, the joiner has bonded if and only if its wait ended with a heard bond_ok and its put was answered ok; short of an exception it otherwise gave up waiting or had its put refused |
| `PairingAgreement.InitiatorMayBondAlone` | packages/protocol/src/pairing/flow.ts:534-547 | A run for the first way: the joiner gives up waiting and the initiator bonds alone |
| `PairingAgreement.InitiatorMayMissTheRefusal` | packages/protocol/src/pairing/flow.ts:562-582 | A run for the second way: the joiner hears bond_ok, its put is refused after both looks of the initiator, and the initiator stays bonded |
| `PairingMilestones.JoinerMilestones` | packages/protocol/src/pairing/flow.ts:430-582 | At every point of every run, tampering included: the joiner shows its view, vouches, pushes, bonds and leaves by exception if and only if the answer at hand is the one that allows it (a good first message; a confirmation of its own view by the manifest's initiator with core agreed; that initiator's tag; an accepted put; a failing call, unparsable text or invalid point) |
| `PairingMilestones.InitiatorMilestones` | packages/protocol/src/pairing/flow.ts:605-797 | The same for the initiator: its check, push, completed push, undo after a failure notice in a look, bond and exceptions, each if and only if |
| `PairingMilestones.FailureNoticeIsHeard` | packages/protocol/src/pairing/flow.ts:291-312 | A failure notice in the slot ends every wait of either side at once, and a look after the push with the old allowlist back |
| `PairingMilestones.RefusalInTimeRollsBack` | packages/protocol/src/pairing/flow.ts:562-797 | An undisturbed run for each look in which the joiner's put is refused in time: both sides roll back and both allowlists are the old ones |
| `PairingRefusal.RefusalIsFinal` | packages/protocol/src/pairing/flow.ts:417-430 | Over every run, tampering and failing calls included: a joiner whose human refuses shows no view, confirms and puts nothing, ends only as rejected with its own reason, or by exception when posting the refusal fails; neither side bonds and neither allowlist changes |
| `PairingRefusal.JoinerRejectedIff` | packages/protocol/src/pairing/flow.ts:417-430 | Over every run a joiner that ended with a result is rejected if and only if its human refused |
| `PairingRefusal.InitiatorRejectedIff` | packages/protocol/src/pairing/flow.ts:620-626 | At every point of every run the initiator's next step ends it rejected if and only if it still waits for the first message and hears a refusal; it takes over the reason, cut to its cap, and its allowlist is the old one |
| `PairingRefusal.HonestRefusalIsTheJoiners` | packages/protocol/src/pairing/flow.ts:606-626 | Without tampering a rejected initiator was refused by the joiner's human, for the reason it reports |
| `PairingRefusal.UndisturbedRefusal` | packages/protocol/src/pairing/flow.ts:417-430 | Three undisturbed steps carry every refusal over to the initiator, reason included, whatever the codes, ids and profiles |
| `PairingLedger.JoinerLedger` | packages/protocol/src/pairing/flow.ts:398-584 | Which posts and which allowlist puts lie behind each end of the joiner with a result: exactly the refusal; nothing, or answer and failure notice; answer; answer and tag; these, the failure notice, push and undo; or answer, tag and push |
| `PairingLedger.InitiatorLedger` | packages/protocol/src/pairing/flow.ts:587-797 | The same for the initiator; when the exchange fails the joiner is told if it had answered and the initiator still has its session, and not if it had not |
| `PairingPrograms.PollWireMessage` | packages/protocol/src/pairing/flow.ts:291-312 | The polling loop ends with the first read that is wanted, does not parse, or throws, or with silence at its deadline |
| `PairingRuns.FirstWantedIsFirst` | packages/protocol/src/pairing/flow.ts:291-312 | A poll answers by the first read that ends it and by no later one, and with silence if and only if none does |
| `PairingPrograms.Host.PairJoin` | packages/protocol/src/pairing/flow.ts:398-584 | The sequential joiner program runs through exactly the control points of the flow model: same end, allowlist, posts and puts; an end with a result burns the code and has exactly its posts and puts behind it, an exception leaves the registry as the lookup left it. When its human refuses a live code it posts exactly the refusal with its reason, puts nothing, and ends rejected with the code burnt if the post goes through, by exception otherwise |
| `PairingPrograms.Host.PairInitComplete` | packages/protocol/src/pairing/flow.ts:587-797 | The same for the sequential initiator program, with its two last looks at the slot. When its first poll ends with a refusal it ends rejected with the reason cut to 256 bytes, posts and puts nothing, and the code is burnt |
| `PairingRegistry.Registry.Lookup` | packages/protocol/src/pairing/flow.ts:76-83 | Purges an expired tombstone, then answers the entry unless tombstoned |
| `PairingRegistry.Registry.Consume` | packages/protocol/src/pairing/flow.ts:93-103 | Moves the entry's expiry into a tombstone, purged at once if past, and is a no-op without entry |
| `PairingRegistry.Registry.Register` | packages/protocol/src/pairing/flow.ts:72-74 | Stores the entry under its own code |
| `PairingRegistry.Registry.Update` | packages/protocol/src/pairing/flow.ts:85-91 | Patches an existing entry only |
| `PairingRegistry.Registry.IsConsumed` | packages/protocol/src/pairing/flow.ts:105-108 | Purges an expired tombstone, then answers whether one is left |
| `PairingRegistry.LookupPending` | packages/protocol/src/pairing/flow.ts:314-328 | Answers live, expired (then tombstoned) or not found |
| `PairingRegistry.EnsureJoinerRegistry` | packages/mcp-server/src/tools/pair.ts:152-192 | A joiner is let in by a live entry or by an unexpired manifest, never past a tombstone |
| `PairingRegistry.SingleUse` | packages/protocol/src/pairing/flow.ts:67-116 | Once a flow that held the pending entry has burned the code, no later start of a flow is given a live entry for it, over any calls in between, tombstone purging and re-registration with the same expiry included |
| `PairingRegistry.FreshIsLive` | packages/protocol/src/pairing/flow.ts:314-328 | An unexpired registration of a code without tombstone is live |
| `PairingRegistry.UnburntIsLive` | packages/protocol/src/pairing/flow.ts:314-328 | A flow that ended by exception leaves its code startable until it expires |
| `PairingRegistry.UpdateMarksOne` | packages/protocol/src/pairing/flow.ts:85-91 | A mark on an entry is seen with it and makes it neither more nor less startable; no other code is touched |
| `PairingRegistry.ExpiredOnce` | packages/protocol/src/pairing/flow.ts:314-328 | An entry found past its expiry is found so once; afterwards its code is unknown until it is registered again |
| `PairingRegistry.VisibleIsStartable` | packages/protocol/src/pairing/flow.ts:76-83 | A lookup sees exactly the entries with which a flow could start or which it would find expired |
| `PairingRegistry.RejoinAnswersStartableIff` | packages/mcp-server/src/tools/pair.ts:152-192 | The joiner is told yes if and only if a flow can be started with the code right afterwards, except exactly when the relay answers an unknown code with an unexpired manifest of another code |
| `PairingRegistry.ExpiredEntryBlocksNothing` | packages/mcp-server/src/tools/pair.ts:161-168 | Against the source's comment, an entry past its expiry blocks no later join: its tombstone is purged at once, and the next join is answered yes if and only if the relay's manifest is in time by then |
| `PairingRegistry.LaterExpiryRevives` | packages/mcp-server/src/tools/pair.ts:171-190 | The same expiry is needed: a manifest with a later one revives a used code after the purge |
| `PairingPreimages.BuildV2` | packages/protocol/src/pairing/pair-confirm-fingerprint.ts:61-82 | Filling the buffer part by part yields the v2 preimage |
| `PairingPreimages.ConcatParts` | packages/protocol/src/pairing/pair-confirm-fingerprint.ts:27-36 | The two loops allocate and fill exactly the concatenation of the parts |
| `PairingPreimages.EncodeProfileList` | packages/protocol/src/pairing/pair-confirm-fingerprint.ts:18-25 | The loop yields the count and each profile behind its length |
| `PairingPreimages.V2Injective` | packages/protocol/src/pairing/pair-confirm-fingerprint.ts:61-82 | For fields and counts under 65536, equal v2 preimages force equal key, ids and profile lists |
| `PairingPreimages.V2InjectiveOnText` | packages/protocol/src/pairing/pair-confirm-fingerprint.ts:14-82 | The same on the texts before their UTF-8 encoding |
| `PairingPreimages.V1Injective` | packages/protocol/src/pairing/pair-confirm-fingerprint.ts:42-59 | Equal v1 preimages force equal key and ids |
| `PairingPreimages.BondInjective` | packages/protocol/src/pairing/pair-bond-ok-tag.ts:18-38 | Equal bond preimages force equal key and sender |
| `PairingPreimages.DomainsSeparate` | packages/protocol/src/pairing/pair-bond-ok-tag.ts:4-38 | No v1, v2 and bond preimages ever coincide, whatever the lengths |
| `PairingPreimages.LongFieldsCollide` | packages/protocol/src/pairing/pair-confirm-fingerprint.ts:7-12 | The length bound is needed: two different pairs of ids with one preimage when a length wraps |
| `Profiles.IntersectProfiles` | packages/protocol/src/profile/intersect.ts:1-12 | The loop and the sort yield exactly the common profiles, each once, in ascending order |
| `Profiles.IntersectAgrees` | packages/protocol/src/profile/intersect.ts:1-12 | Both sides derive the same list, whichever list is first and however the lists were ordered or repeated |
| `Receive.ReceiveEnvelope` | packages/protocol/src/crypto/receive-envelope.ts:73-163 | Accepted if and only if every check of the numbered list holds, decryption, artifact fetch and dispatch last, and otherwise answered with the error of the first that fails; an accepted envelope sets its stream to its number, a refused one leaves the store unchanged |
| `Receive.AnswersInOrder` | packages/protocol/src/crypto/receive-envelope.ts:73-163 | The same of the answer as a function: it is the first failing check's, in the order of the list, and acceptance means that all of them hold |
| `Receive.FailedReactionMayBeRetried` | packages/protocol/src/crypto/receive-envelope.ts:134-162 | A wire whose only fault was the host's reaction (decryption, fetch or dispatch) is refused without a trace, and accepted when it is delivered again in time to a host that reacts |
| `Receive.StreamKeyInjective` | packages/mcp-server/src/store/envelope-seq.ts:18-20 | Two streams share a joined key only if they are one stream, as no valid sender id contains the separator |
| `Receive.SeparatorInIdCollides` | packages/mcp-server/src/store/envelope-seq.ts:18-20 | With the separator allowed in ids two streams would share a key |
| `Receive.SeqStore.CommitAccepted` | packages/mcp-server/src/store/envelope-seq.ts:57-65 | Sets the stream's number, and nothing for a negative one |
| `Receive.OneArrival` | packages/protocol/src/crypto/receive-envelope.ts:127-162 | One arrival either changes nothing or raises exactly its own stream to its own, larger number |
| `Receive.ReplaySafe` | packages/protocol/src/crypto/receive-envelope.ts:127-162 | Whatever a relay delivers, repeats or reorders, accepted numbers strictly increase in every stream, so nothing is accepted twice |
| `Receive.NeverAgain` | packages/protocol/src/crypto/receive-envelope.ts:127-133 | A wire accepted once is refused ever after |
| `RelayInbox.Relay.Post` | packages/relay/src/routes/inbox.ts:300-402 | The relay's checks in order, then an append, or for a known id success only for the identical wire |
| `RelayInbox.PostIsIdempotent` | packages/relay/src/routes/inbox.ts:370-401 | Posting a stored wire again changes nothing and is answered as stored |
| `RelayInbox.PageExact` | packages/relay/src/routes/inbox.ts:404-457 | An entry is on the page if and only if it is a row of the agent after the cursor, where a negative cursor or one beyond 10^12, a time stamp of old, starts from the first row |
| `RelayInbox.PageInOrder` | packages/relay/src/routes/inbox.ts:404-457 | The entries of a page come in the order of the log, each once |
| `RelayInbox.RefusedInOrder` | packages/relay/src/routes/inbox.ts:309-364 | A post is refused with the error of the first failing check of the relay's list and passes if and only if all of them hold |
| `RelayInbox.PostAnswered` | packages/relay/src/routes/inbox.ts:366-401 | A post that passes is appended if and only if its id is new; under a known id it is answered as stored if and only if the log holds that very wire, and every other wire collides and changes nothing; the log keeps one wire to an id |
| `RelayInbox.FirstWireKeepsItsId` | packages/relay/src/routes/inbox.ts:387-401 | Over any posts before and in between: once a wire is stored under an id, no other wire is ever stored under it |
| `RelayInbox.StoredIsReceivable` | packages/relay/src/routes/inbox.ts:309-364 | What the relay stored its recipient accepts if and only if the sender is bonded, the number is new, the envelope is in time and the host reacts: the two lists of checks fit together |
| `RelayInbox.Relay.Get` | packages/relay/src/routes/inbox.ts:404-465 | The page is every row of the agent after the normalised cursor, filtered; the new cursor covers the hidden rows too |
| `InboxClient.FilterBondedWires` | packages/mcp-server/src/tools/inbox.ts:82-110 | Keeps exactly the wires that name a bonded sender, in order |
| `InboxClient.Client.HandleInbox` | packages/mcp-server/src/tools/inbox.ts:112-338 | One pull: page, filters, every envelope received in order, and the cursor set to the page's end |
| `Delivery.ExactlyOnce` | packages/mcp-server/src/tools/inbox.ts:112-405 | With an honest append-only relay, fixed allowlists and automatic numbers, however sends and pulls interleave, older cursors pulled again included and as long as no pull skips over a row due to the receiver: what was taken is exactly what its peers stored for it up to its cursor, each once and in order, and after one more pull nothing is missing |
| `Delivery.PullKeeps` | packages/relay/src/routes/inbox.ts:426-457 | One pull, from wherever, leaves the receiver with exactly what is due outside the rows skipped |
| `Delivery.SendKeeps` | packages/mcp-server/src/tools/thread-seq.ts:29-42 | One send, stored or not, keeps every stream of the log rising and below its sender's high-water mark |
| `Delivery.SkipIsHarmlessIff` | packages/mcp-server/src/tools/inbox.ts:124-131 | A pull from beyond the stored cursor, any further sends and a pull from the new cursor: nothing due is missing if and only if no row due to the receiver, stored before or after the skip, lies between the two cursors |
| `Delivery.SkippingAheadLoses` | packages/mcp-server/src/tools/inbox.ts:124-131 | A concrete loss: a first pull from 5, and the envelope stored next is never taken |
| `ThreadSeq.Sender.NextThreadSeq` | packages/mcp-server/src/tools/thread-seq.ts:25-31 | One above the thread's high-water mark |
| `ThreadSeq.Sender.RecordSentSeq` | packages/mcp-server/src/tools/thread-seq.ts:33-42 | Remembers the number and raises the thread's high-water mark only |
| `ThreadSeq.NumbersGoOn` | packages/mcp-server/src/tools/thread-seq.ts:25-42 | The numbers a sender gives out on a thread go on from its high-water mark one by one, whatever it sends on other threads in between |
| `ThreadSeq.MarkIsTheHighest` | packages/mcp-server/src/tools/thread-seq.ts:33-42 | After any recordings, the caller's own and out of order ones included, a thread's mark is the highest number recorded on it |
| `ThreadSeq.DetectGlobalThreadGap` | packages/mcp-server/src/tools/thread-seq.ts:44-75 | Answers nothing if and only if the numbers are contiguous, else the last number before the first gap |
| `RateLimit.Consumer.EvictStaleBuckets` | packages/relay/src/middleware/rate-limit.ts:92-103 | The loop deletes exactly the buckets two windows old or older |
| `RateLimit.Consumer.TryConsume` | packages/relay/src/middleware/rate-limit.ts:109-134 | Decision and new buckets of one request, after eviction |
| `RateLimit.EvictionInvisible` | packages/relay/src/middleware/rate-limit.ts:92-134 | With a clock that never goes back, the limiter decides every trace exactly as one that never evicts |
| `RateLimit.ClockMatters` | packages/relay/src/middleware/rate-limit.ts:92-134 | With a clock that goes back it need not |
| `RateLimit.LimitIsReal` | packages/relay/src/middleware/rate-limit.ts:109-134 | Any half-open interval of one window's length admits at most 2*max(1, maxRequests) - 1 requests of a key |
| `RateLimit.BoundIsExact` | packages/relay/src/middleware/rate-limit.ts:109-134 | That bound is met, for every limit of at least one and window of at least two milliseconds |
| `RateLimit.RefusalIsEarned` | packages/relay/src/middleware/rate-limit.ts:109-134 | A request of any trace is refused only if, since some moment less than one window back, its key was let through as often as the limit allows |
| `Utf8.DecodeExact` | packages/mcp-server/src/tools/util.ts:45-60 | The fatal decoder accepts exactly the encodings of code-point strings, and gives back what was encoded (sections 3 and 4 of RFC 3629) |
| `Utf8.TruncateUtf8ToBytes` | packages/mcp-server/src/tools/util.ts:45-60 | Cutting back byte by byte until the bytes decode yields the specified truncation, within four attempts |
| `Utf8.TruncationIsLongestPrefixIff` | packages/mcp-server/src/tools/util.ts:45-60 | For every cap the result is the longest prefix that fits if and only if the text fits whole, does not start with a byte order mark, or the cap is below the three bytes of that mark |
| `Utf8.TruncationFillsTheCap` | packages/mcp-server/src/tools/util.ts:45-60 | The result never exceeds the cap, and a cut one is at most three bytes short of it when no mark is lost |
| `Utf8.BomIsLost` | packages/mcp-server/src/tools/util.ts:45-60 | A concrete text with a leading byte order mark that truncation drops |
| `Utf8.LossyIsExact` | packages/protocol/src/artifact/resolve.ts:15-17 | Decoding with replacement characters agrees with the strict decoder on all well-formed bytes |
| `Utf8.LossShows` | packages/protocol/src/artifact/resolve.ts:15-17 | Bytes the strict decoder refuses leave a replacement character in the text |
| `Utf8.LossyKeepsText` | packages/protocol/src/artifact/resolve.ts:15-17 | Whatever follows, a well encoded beginning comes through whole |
| `Utf8.WrapPeerText` | packages/mcp-server/src/tools/util.ts:62-77 | Peer text is handed on whole if it fits, else truncated and marked with its original length |
| `Spillover.WireLengthExact` | packages/protocol/src/crypto/envelope.ts:38-142 | The length of the whole wire, both base64url layers and the JSON around them included, as a function of the payload's length |
| `Base64.Base64UrlLength` | packages/protocol/src/crypto/base64url.ts:17-19 | The length of the unpadded encoding of section 5 of RFC 4648 |
| `Base64.DecodeEncoded` | packages/protocol/src/crypto/base64url.ts:2-15 | The strict decoder gives back every non-empty byte string that was encoded |
| `Json.ReadQuoted` | packages/protocol/src/artifact/spill.ts:68-72 | Every string, with its quotes, backslashes and control characters escaped, is read back as it was (RFC 8259) |
| `Json.ParseObject` | packages/protocol/src/artifact/spill.ts:68-72 | A written flat object parses to exactly its members, a repeated key keeping its last value |
| `Spillover.ReferenceReadBack` | packages/protocol/src/artifact/schema.ts:15-45 | The bytes of any reference, whatever its summary holds, pass the strict schema and give that reference back |
| `Spillover.TextSummary` | packages/protocol/src/artifact/fields.ts:9-28 | A text's summary is its beginning, up to 240 code points, and its content type is JSON if and only if it parses |
| `Spillover.NoTextNoSummary` | packages/protocol/src/artifact/fields.ts:9-28 | Bytes that encode no text have an empty summary and count as plain bytes |
| `Spillover.SentIff` | packages/protocol/src/artifact/spill.ts:37-87 | A payload is sent as it is if and only if its wire fits the cap, and as a reference if and only if it does not, the artifact is not too large, the upload worked and the reference's wire fits; what is sent is the payload or that reference |
| `Spillover.ErrorIff` | packages/protocol/src/artifact/spill.ts:45-74 | The error for each other case, if and only if: an artifact too large, or the relay's own code for a failed upload, or the default one without a code |
| `Spillover.ThrownIff` | packages/protocol/src/artifact/spill.ts:63-84 | The two exceptions, if and only if: the relay computed another hash, or the artifact is stored and the reference does not fit |
| `Spillover.SpilledFits` | packages/protocol/src/artifact/spill.ts:37-87 | No wire above 65536 bytes is ever sent, and the final throw is unreachable when the JSON of type and thread has at most 46439 bytes |
| `Spillover.BoundIsSharp` | packages/protocol/src/artifact/spill.ts:74-84 | One byte more, and a payload of ten million control characters reaches the throw |
| `Spillover.LongNamesNeverFit` | packages/protocol/src/artifact/spill.ts:74-84 | From 48426 bytes on everything that has to spill reaches the throw |
| `Spillover.SpilledComesBack` | packages/protocol/src/artifact/resolve.ts:34-65 | When a reference goes out the relay's store holds the sealed artifact under its hash, and fetched from there it resolves to the payload |
| `Spillover.RoundTrip` | packages/protocol/src/artifact/resolve.ts:11-65 | With a relay store that holds an artifact exactly after a successful upload, a spilled payload comes back whole; one sent as it is comes back if and only if its bytes are not a JSON object with a spill member, or refer to a sealed copy of themselves |
| `Spillover.TamperingIsNoticed` | packages/protocol/src/artifact/resolve.ts:41-64 | Whatever the relay returns for the artifact, a spilled payload resolves to the original or to an error, unless the relay found another artifact with the same hash |
| `Spillover.OwnMarkerIsRefused` | packages/protocol/src/artifact/resolve.ts:26-33 | A concrete payload with a spill member of its own that is refused on arrival |

## Left out

- Cryptography itself (SPAKE2, Ed25519, XChaCha20-Poly1305, SHA-256, HKDF): foreign code, taken as symbolic functions.
- Peer messages, locked sections, warnings and the text of replies beyond their error code: they steer no handler.
- JSON text and schema validation other than those of a spill reference, HTTP routes, tool wiring, preflight, runners and the command line.
- Scope and mode of a bond: they come from the unauthenticated manifest and are copied as they are.
- A ratification that names neither thread nor item; the model's caller always names one.
- Persistence, flushing and restarts; outbound sequence marks live in memory only.
- Row deletion at the relay, row-id reuse, challenge-response pull authentication, and the relay's gap reports.
- Explicit sequence numbers chosen by the caller, pulls that include history, and expiry by ttl in the exactly-once result.
- Session side effects after an envelope was accepted by the inbox loop; they are the session handlers modelled separately.
- Which client key a request has in the rate limiter; a key is a parameter.
- Ill-formed strings (lone surrogates) before UTF-8 encoding.
- Timers of polling loops: a timeout is one possible answer of an await.
- Pulls and sends that fail on the network before anything is stored or read; they change nothing.
- How the bonded peers of a pull are computed from bonds and allowlist; the set is a parameter.
- Receive.ReceiveEnvelope: the form of an agent id is modelled only as far as it matters here, namely that a valid one contains no NUL.
- SessionMachine.Machine.HandleExpireSessions: the order in which the threads are visited is left open, and each thread's send may succeed or fail on its own.
- SessionMachine.Machine.HandleIncomingEnvelope: the budget handlers' own second look at the deadline is not repeated, because the first one has already acted.
- Delivery.ExactlyOnce: speaks of what the receiver accepts; a dispatcher that refuses an accepted type or a failing artifact fetch is excluded by assumption.
- Json.ParseObject: numbers are kept exactly, where the platform rounds them to doubles; it matters only for a forged `size` or `spill` beyond their precision.
- The turn counts of two linked sides are not compared with each other; `NormativeRules.CountIsTheWiresIff` compares each with the wire.
- PairingAgreement.HonestJoinerBondStands: one flow of each kind per code; several concurrent flows of one code are covered by the registry result only.
