# AttesTAM: a verified model

AttesTAM is a Trusted Application Manager (TAM) speaking the TAM side of section 3 of
draft-ietf-teep-protocol-26 over a relational store. This project models its protocol engine and
store, its manifest registry, its SGX path and its TEEP message codec, and proves what they
guarantee.

The centre is a state machine (`Machine.dfy`) in which every request, registration and revocation
is a thread, and one step of a thread executes one SQL statement (or one transaction) and the
local code up to the next one. Threads interleave freely, time passes between steps, a lookup with
`LIMIT 1` may answer any matching row, and any statement may fail. Runs start from an empty store
with given signing keys and devices (`Delivery.Reached`). Invariants over all runs are proved in
layers: what one thread's own history can be (`RequestFacts`), handles (`Handles`), conservation of
handles (`Conservation`), sent messages (`Delivery`, `Answers`), trusted keys (`Trust`), what
authentication is worth (`Authentication`), holdings (`Holdings`, `Beliefs`), revocation
(`Revocation`, `Footing`, `LateReports`), confinement of effects (`Effects`), the registry
(`Registry`, `Envelope`), keys from SGX bundles (`SgxTrust`). What a reached state can still come
to is proved by building its continuations (`Continuations`), that the exceptions are met by
building runs (`Witness`), and what a failing store does in `Faults`.

The program itself is modelled imperatively beside it: `Repositories.Store` has the tables as
fields, one method per repository operation, and `Tam.Tam` has the handlers. Every handler is
proved to take the configuration it starts in to the one it ends in by steps of the machine in
which nothing fails but the random source (`Solo.Leads`), so that `Tam.Serve`, which handles a
request from beginning to end, only ever extends a run of the machine, and every theorem about
runs is a theorem about the class (`Tam.StoreIsSound`).

What serving comes to is said a second time, without the machine and without any function of the
program: `Service.Serves` relates a request, the store before, the keys, the clock and the random
bytes to the answer and the store after, in literal constants. Every handler of `Tam.Tam` is proved
to meet its part of it, and `Tam.Serve` the whole (`Accounts` and `Treatments` hold the steps of the
proof). `Guarantees` draws from it alone what an agent can count on: which messages are served,
which attestations are taken, which reports are accepted. `Replies` has the messages the answers
travel as, down to the bytes, and `Utf8` what counts as text in them.

Assumptions are parameters: signature verification, key usability and key thumbprints
(`Protocol.World`), the verdict of the attestation verifier and what it reads from the evidence
(`Protocol.Verdict`, part of the input, since a request consults the verifier at most once), the
clock and the random source (`Repositories.Environment`, and the `Tick` and `Event` of the
machine), the CBOR, COSE, X.509, JSON and hash libraries (the `Libraries` datatypes of `Envelope`,
`SgxBundle` and `Collateral`). SHA-256 and SHA-384 are any functions to 32 and 48 bytes; that they
are free of collisions is never assumed: the results about digests name the inputs that would
have to collide, the manifests stored or the raw report data at hand. Row ids are positions in the tables, since no modelled statement deletes a row. Times
are nanoseconds.

Where an obvious claim is not what the code does, the exact condition is proved:

- an Update for a revoked or expired key can still go out: some continuation answers one if and
  only if a request has already passed the liveness check (`Revocation.NoUpdateForDeadKey`, met on
  a run by `Witness.DeadYetPastGate`);
- a Success authenticated before its key was revoked can still be recorded: some continuation
  records a holding of the agent if and only if such a request has read the rows of a report, or
  is to look one up, or can still match its token and has one (`Continuations.NoHoldingForDeadKey`,
  met on a run by `Witness.DeadYetReporting`);
- overlapping registrations of one component can leave its stream out of order
  (`Registry.OverlapBreaksStreams`): letting the registrations that have passed their check insert
  keeps the streams ordered, in whatever order, if and only if no two of them are of one component
  (`Registry.OverlapExactly`);
- the status query ranks the holdings of all agents together: every answer lists a component the
  agent holds if and only if each holding of it elsewhere is strictly earlier, and every answer
  omits it if and only if one elsewhere is strictly later (`Status.ShownExactly`, met on a run by
  `Witness.HoldingGoesUnlisted`);
- a zero `nextUpdate` wipes a nearer one that was read before it, so that a cache entry outlives
  it (`Collateral.ZeroTimeWipes`, `Collateral.HonoursUnlessWiped`);
- certification data may lie beyond the declared signature length (`Quote.ChainCanLieOutside`),
  exactly when that length is less than the fields it is to hold (`Quote.ChainInsideExactly`);
- an empty nonce reads as no nonce (`SgxBundle.SplitUndoesConcatenation`);
- a message whose text options are not valid UTF-8 is encoded but does not decode
  (`TeepCodec.UnmarshalUndoesMarshal`).

Where code and documentation disagree the model follows the code. `doc/TEEP_MESSAGE_HANDLE.md`
(line 187) lets a payload format without a key still confirm the challenge for an agent that is
already trusted; the code reads a nonce from the EAT and SGX formats only, so such a response is
refused. The model leaves the nonce of any format to the verdict, which covers both, and a key is
only ever introduced by the EAT and SGX formats. `GetAgentStatus` is documented to return the latest holding per component of
an agent; it returns the latest over all agents, if it is that agent's. Handle expiry appears in
the schema and is never set or checked. An Error records the reports that are positive, as
unresolved, and no others.

## Model

| member | source | states |
|---|---|---|
| Tables.ApplyExtends | internal/infra/sqlite/token_repo.go:64-82 | every statement keeps all rows and their contents; a consumed flag never returns to 0, a revocation is never taken back, an agent's key and expiry never change |
| Machine.RunExtends | internal/infra/sqlite/agent_repo.go:127-163 | the same over any run of any length |
| Machine.NextCounted | internal/tam/tam.go:179-200 | the next report either branch acts on: decodable, SHA-256, positive; everything in between is skipped |
| RequestFacts.NextKeeps | internal/tam/tam.go:110-246 | each statement's write rests on grounds the request has achieved, and achievements are never taken back; what being authenticated is worth is `Authentication.AuthenticationIsEarned` |
| RequestFacts.RunFaithful | internal/tam/tam.go:110-246 | in every run every request's history is grounded, and records at most one sent message and at most one key |
| Handles.OneTimeHandles | internal/tam/tam.go:493-604 | in every interleaving no two requests ever recover a message under the same handle, consume the same token or the same challenge; consumed handles stay spent and handle bytes stay unique |
| Handles.LookupsUnambiguous | internal/infra/sqlite/sent_query_request_message_repo.go:56-177 | each LIMIT 1 has at most one row to answer, and a token found among the QueryRequests is not among the Updates, so the search order is immaterial |
| Handles.StepSound | internal/infra/sqlite/token_repo.go:104-128 | every step keeps: unique handle bytes, each token bound at most once across both sent tables and each challenge at most once, every QueryRequest with exactly one of the two |
| Conservation.OutstandingAtMostEmptyPosts | internal/tam/tam.go:248-331 | however requests interleave and statements fail, unconsumed handles bound to a sent message never outnumber the empty POSTs received |
| Conservation.OneForOne | internal/tam/tam.go:110-246 | every accepted non-empty message consumed a handle and found its message; a request records at most one sent message, and only after that |
| Conservation.MoveConserves | internal/tam/tam.go:758-858 | a step that records a sent message spends a credit, and a credit comes only from an empty POST or from leaving a lookup that found something |
| Delivery.UpdateRoundTrip | internal/infra/sqlite/sent_update_message_repo.go:140-207 | once an Update is answered, looking its token up in any later state finds no QueryRequest and an Update with the same multiset of manifest bytes, whatever was registered since |
| Delivery.QueryRoundTrip | internal/infra/sqlite/sent_query_request_message_repo.go:92-177 | once a QueryRequest is answered, looking its handle up finds the bits that were requested |
| Delivery.NeverPanics | internal/infra/sqlite/sent_update_message_repo.go:80-92 | the manifest row dereferenced after FindByID always exists |
| Delivery.RecordedKept | internal/infra/sqlite/sent_update_message_repo.go:44-99 | what a request has recorded as sent survives every write of the others |
| Trust.TrustedKeysWereProved | internal/tam/tam.go:610-677 | every agent row was stored by a request with an affirming verdict whose nonce is a challenge sent under a recorded QueryRequest and consumed by that request, whose message verifies under the attested key, and whose thumbprint is the kid; kids are unique |
| Trust.KeysNeverOutnumberChallenges | internal/tam/keyring.go:20-71 | agent rows never outnumber consumed challenges |
| Authentication.AuthenticationIsEarned | internal/tam/tam.go:367-416 | in every interleaving a request counts as authenticated as kid only if at some moment of the run a usable key stored under kid was neither revoked nor expired and verified the body of this very request; the key is stored still |
| Authentication.UpdatesGoToProvedKeys | internal/tam/tam.go:133-169 | an Update is answered only for the kid its request verified under in that sense, or for the kid of the attested key it introduced itself |
| Revocation.NoUpdateForDeadKey | internal/infra/sqlite/sent_update_message_repo.go:44-53 | once a key is revoked or expired, no continuation answers another Update for it if and only if no request is past the liveness check of CreateWithToken |
| Revocation.PastGateGetsThrough | internal/infra/sqlite/sent_update_message_repo.go:54-98 | a request past that check has a continuation in which its Update is answered |
| Footing.ReachedGrounding | internal/infra/sqlite/agent_repo.go:127-138 | in every reached state whoever is authenticated or is to be sent an Update has a stored 32-byte thumbprint, or one that can never be stored, and manifests exist only beside a signing key; together with all the other invariants |
| LateReports.ExecuteStaysQuiet | internal/tam/tam.go:170-202 | once a key is revoked or expired and no request may still report as it, no run of any length records a holding of its agent, lets such a request arise, or changes the belief |
| Continuations.MayStillReportLands | internal/infra/sqlite/agent_status_repo.go:30-92 | whoever may still report has a continuation, built action by action, in which a holding of its agent is recorded |
| Continuations.NoHoldingForDeadKey | internal/infra/sqlite/agent_status_repo.go:30-92 | in every reached state with a revoked or expired key: no continuation whatever records another holding of its agent if and only if no request may still report as it |
| Continuations.DeadKeyHoldsStill | internal/infra/sqlite/agent_repo.go:58-163 | and then no continuation, re-attestation included, changes what the agent is believed to hold, its key or its expiry |
| Continuations.LateReportStillLands | internal/infra/sqlite/agent_status_repo.go:30-92 | in every reached state in which the key is dead, two more steps of a Success that has come to look up a known manifest replace the belief about its component |
| Witness.DeadYetPastGate | internal/infra/sqlite/sent_update_message_repo.go:44-98 | a run from the empty store after which a key is revoked and an Update for it is past the check |
| Witness.DeadYetReporting | internal/tam/tam.go:170-202 | a run after which a key is revoked, its agent holds nothing, and two more steps record a holding of it |
| Holdings.OneManifestPerComponent | internal/infra/sqlite/agent_status_repo.go:49-92 | in every interleaving at most one holding is in force per agent and component, and the insert never meets the unique index |
| Holdings.HoldNeverCollides | internal/infra/sqlite/database.go:234 | after the retirement no row in force is left to collide with |
| Beliefs.HoldReplaces | internal/infra/sqlite/agent_status_repo.go:55-76 | recording a holding replaces the belief about that component of that agent and no other belief |
| Beliefs.BelievedIffHolds | internal/infra/sqlite/agent_status_repo.go:49-63 | the belief map says exactly what the holdings in force say |
| Beliefs.ReflectedReport | internal/tam/tam.go:179-200 | one more report acted on is one more step of the left fold over the reports |
| Effects.EveryChangeIsAccountedFor | internal/tam/tam.go:110-246 | in every reached state whatever a step changes is accounted for: holdings by a Success with a matched token, unresolved reports by an Error, both by a request whose body verified under a stored key live at some moment of the run, manifests by a registration, agent rows by a revocation or a proved key; beliefs change about no agent but the one it authenticated as |
| Effects.UnaffirmedLeavesNoTrace | internal/tam/tam.go:626-628 | without an affirming verdict and a matched message a request leaves every table as it was but for the flag of the token it presented |
| Registry.InsertKeepsStreamsIffFresh | internal/tam/manifest_repository_flow.go:41-50 | inserting a row keeps the streams ordered exactly when it is newer than, and signed like, every row of its component |
| Registry.SerialRegistrationKeepsStreams | internal/tam/manifest_repository_flow.go:23-65 | when registrations of a component do not overlap, its rows have strictly growing sequence numbers below 2^63 - 1 and one signing key, in every reached state |
| Registry.OverlapExactly | internal/tam/manifest_repository_flow.go:37-62 | from a state whose checks were made without overlap, every order of letting the registrations past their check insert keeps the streams ordered if and only if no two of them are of one component |
| Registry.SerialSoFarIsSound | internal/tam/manifest_repository_flow.go:23-65 | the end of every run without overlap but for its last action is such a state |
| Registry.OverlapBreaksStreams | internal/tam/manifest_repository_flow.go:37-62 | a run with two overlapping registrations, both accepted, that leaves a stream out of order |
| Registry.LatestIsLast | internal/infra/sqlite/suit_manifest_repo.go:48-65 | in ordered streams the row with the largest sequence number is the last inserted, and the only one |
| Registry.NumbersStayInRange | internal/infra/sqlite/suit_manifest_repo.go:103-106 | in every interleaving stored numbers are below 2^63 - 1, so the signed column reads and orders as the unsigned numbers registered |
| Registry.AllLatestAgreesWithLatest | internal/infra/sqlite/suit_manifest_repo.go:68-100 | FindLatestAll answers exactly one row per known component, the row FindLatestByTrustedComponentID answers, in strictly ascending order of the components |
| Registry.NotAfterExactly | internal/infra/sqlite/suit_manifest_repo.go:68-100 | components compare as byte strings: one that begins the other, or is smaller at the first byte that differs, comes first |
| Registry.LatestNeverGoesBack | internal/infra/sqlite/suit_manifest_repo.go:48-65 | over any run, overlaps included, the unsigned sequence number of the latest manifest never decreases, and in ordered streams its signer stays |
| Registry.SignedOrderExactly | internal/infra/sqlite/suit_manifest_repo.go:103-106 | signed column order is unsigned order exactly when both values lie on the same side of 2^63, and a stored value reads back exactly |
| Envelope.SkipTag | internal/suit/manifest.go:83-91 | the two bytes D8 6B are removed from the front if they are there, and nothing else is |
| Envelope.Envelope.UnmarshalWrapper | internal/suit/manifest.go:164-188 | succeeds exactly on an array of a digest and one signature block with a kid, and fills the fields with them |
| Envelope.Envelope.Unmarshal | internal/suit/manifest.go:58-81 | succeeds exactly when the data contains a wrapper and a manifest, and fills the fields with them |
| Envelope.Envelope.Verify | internal/suit/manifest.go:93-146 | succeeds exactly when the digest is the SHA-256 digest of the manifest as carried and the block is a detached signature over it under the key |
| Envelope.AddTcManifest | internal/server/handler.go:243-314 | with distinct signers, answers 200 if and only if the body amounts to a registration under a known key that may be made (its number below 2^63 - 1, newer than and signed like every row of its component), 500 if and only if just its number is too large, 400 to every other body; with 200 exactly the row it amounts to is added, otherwise nothing changes; every row keeps saying what the manifest in its envelope says |
| Envelope.VetEnvelope | internal/server/handler.go:243-300 | the one registration the body amounts to, if it amounts to one |
| Envelope.VettedStoreHasUniqueDigests | internal/infra/sqlite/suit_manifest_repo.go:103-120 | in a TAM whose rows say what the manifests in their envelopes say, no two rows share a digest unless the manifests stored in two rows collide |
| Envelope.DigestIdentifiesRow | internal/tam/manifest_repository_flow.go:41-58 | if two rows share a digest, the two manifests stored in them collide; a manifest with the digest of a row is the one stored in it, or collides with it |
| Envelope.DigestLookupIsFunction | internal/infra/sqlite/agent_status_repo.go:35-41 | in every run of vetted, non-overlapping registrations the digest lookup of reports answers one row whichever it picks, or the manifests stored in the two rows collide; and a manifest with that digest is the one stored in the row, or collides with it |
| Status.RankHoldings | internal/infra/sqlite/agent_status_repo.go:150-156 | the first-ranked holding of each component, over all agents, latest first |
| Status.GetAgentStatus | internal/infra/sqlite/agent_status_repo.go:142-214 | answers nothing for an unknown agent, else its thumbprint, the UEID of its device if it has one, when it was stored, and its first-ranked holdings |
| Status.ListFirst | internal/infra/sqlite/agent_status_repo.go:169-202 | one entry for each holding of the agent that ranks first, no other entry, no component twice |
| Status.EntriesAreBelieved | internal/infra/sqlite/agent_status_repo.go:195-201 | every entry is a manifest the agent is believed to hold, with its unsigned sequence number |
| Status.ShownExactly | internal/infra/sqlite/agent_status_repo.go:151-156 | of a component the agent holds: every answer lists it if and only if every holding of it elsewhere is strictly earlier, and every answer omits it if and only if some holding elsewhere is strictly later; a tie goes either way |
| Status.ShownUnlessLater | internal/infra/sqlite/agent_status_repo.go:151-156 | one answer at a time: nothing is shown of a component held later elsewhere, and the component is shown if every other holding of it is earlier |
| Status.UncontestedIsShown | internal/infra/sqlite/agent_status_repo.go:139-214 | every held component that no other agent holds is present |
| Witness.HoldingGoesUnlisted | internal/infra/sqlite/agent_status_repo.go:139-214 | a run with two attested agents after which every answer omits what the first holds |
| Selection.ComponentSetDeduplicates | internal/tam/tam.go:780-815 | the component set is the listed components once each, requested-tc-list before tc-list, in first-occurrence order |
| Selection.SelectionIsExact | internal/tam/tam.go:825-846 | the manifests picked are the latest of each known listed component, none twice, none missing, and none at all exactly when no listed component is known |
| Answers.InterleavedUpdateContents | internal/tam/tam.go:780-846 | in every interleaving an answered Update carries, for the listed components once each and in first-occurrence order, rows that were the latest of their component at some moment of the request; nothing is answered only if each was unknown at such a moment |
| Repositories.Store.GenerateUniqueToken | internal/infra/sqlite/token_repo.go:104-128 | stores 32 drawn bytes no token has, or nothing when the random source fails, and then every draw it had left was taken |
| Repositories.Store.GenerateUniqueChallenge | internal/infra/sqlite/challenge_repo.go:104-128 | the same for challenges |
| Repositories.Store.FindHandle | internal/infra/sqlite/token_repo.go:45-61 | a row with these bytes if there is one |
| Repositories.Store.MarkTokenConsumed | internal/infra/sqlite/token_repo.go:64-82 | succeeds exactly when an unconsumed row was there, and then flips it and nothing else |
| Repositories.Store.MarkChallengeConsumed | internal/infra/sqlite/challenge_repo.go:64-82 | the same for challenges |
| Repositories.Store.CreateQuery | internal/infra/sqlite/sent_query_request_message_repo.go:56-89 | inserts the row under an unconsumed handle, otherwise nothing |
| Repositories.Store.FindQueryByToken | internal/infra/sqlite/sent_query_request_message_repo.go:92-133 | a QueryRequest sent under the token if there is one |
| Repositories.Store.FindQueryByChallenge | internal/infra/sqlite/sent_query_request_message_repo.go:136-177 | a QueryRequest sent under the challenge if there is one |
| Repositories.Store.FindUpdateByToken | internal/infra/sqlite/sent_update_message_repo.go:140-207 | nothing without an Update under the token, else every manifest linked to it |
| Repositories.Store.CreateUpdate | internal/infra/sqlite/sent_update_message_repo.go:44-99 | writes the Update and one link per manifest in order exactly when the agent is live and the token unconsumed, looking each manifest up; at an unknown one it stops with a nil dereference after the links before it |
| Repositories.Store.FindAgent | internal/infra/sqlite/agent_repo.go:58-73 | a row with the thumbprint if there is one |
| Repositories.Store.CreateAgent | internal/infra/sqlite/agent_repo.go:127-138 | inserts the row unless the thumbprint is taken |
| Repositories.Store.RevokeByKid | internal/infra/sqlite/agent_repo.go:141-163 | succeeds exactly when an unrevoked row was there, and stamps it |
| Repositories.Store.FindSigningKey | internal/infra/sqlite/manifest_signing_key_repo.go:44-60 | a signing key with the kid if there is one |
| Repositories.Store.FindDevice | internal/infra/sqlite/device_repo.go:27-43 | a device with the UEID if there is one |
| Repositories.Store.FindLatest | internal/infra/sqlite/suit_manifest_repo.go:48-65 | a row with the largest sequence number of the component, if the component is known |
| Repositories.Store.FindLatestAll | internal/infra/sqlite/suit_manifest_repo.go:68-100 | every row with the largest sequence number of its component, once, ordered by component as byte strings compare |
| Repositories.Store.CreateManifest | internal/infra/sqlite/suit_manifest_repo.go:103-120 | inserts the row unless the sequence number is 2^63 - 1 or more |
| Repositories.Store.ReflectManifestSuccess | internal/infra/sqlite/agent_status_repo.go:30-92 | retires what the agent held of the component and inserts holding and report together, or writes nothing |
| Repositories.Store.RecordManifestProcessingFailure | internal/infra/sqlite/agent_status_repo.go:94-137 | inserts one unresolved report for a known agent, about a manifest if the digest names one |
| Solo.LeadsIsRun | internal/tam/tam.go:110-246 | whatever a request does alone it does in a run of the interleaved machine in which every other thread stays where it is |
| Statements.LeadsLinks | internal/infra/sqlite/sent_update_message_repo.go:80-98 | the linking loop takes one step of the machine per statement and ends with the Update answered |
| Statements.LeadsReflect | internal/infra/sqlite/agent_status_repo.go:30-92 | the two statements of a positive report, composed: the holding is recorded exactly when agent and manifest are known and nothing collides, else the next report is looked at |
| Tam.Tam.GenerateQueryRequest | internal/tam/tam.go:248-288 | a new 32-byte token and a QueryRequest row for the tc-list alone under it, answered so; or, all draws being taken, a refusal that writes nothing |
| Tam.Tam.GenerateQueryRequestWithAttestation | internal/tam/tam.go:290-331 | the same with a new challenge and attestation alone |
| Tam.Tam.SaveSentQueryRequest | internal/tam/tam.go:428-455 | records the QueryRequest under its handle, failing only for a handle that is unknown or spent |
| Tam.Tam.TryAuthenticate | internal/tam/tam.go:367-416 | a thumbprint exactly if a standing, usable key stored under it verifies the body now; a missing or empty kid, or a standing key that cannot be used, refuses the request |
| Tam.Tam.SearchSentMessageWithToken | internal/tam/tam.go:547-604 | consumes the token before looking, and finds a message exactly if the token was unconsumed and a QueryRequest or an Update was sent under it, QueryRequests first |
| Tam.Tam.SearchSentMessageWithChallenge | internal/tam/tam.go:493-530 | the same for a challenge of a QueryRequest; failing it refuses the request |
| Tam.Tam.SetTeepAgentKey | internal/tam/keyring.go:20-71 | a thumbprint that is not 32 bytes passes; a stored key passes exactly when it is not expired, even revoked, and nothing changes; an unknown one is stored, for 31,536,000 seconds from the present second, with the device of its UEID if there is one |
| Tam.Tam.VerifyAttestationPayload | internal/tam/tam.go:610-677 | exactly when an attestation is taken and for which kid: an affirming verdict whose nonce is an unconsumed challenge of a QueryRequest, and then whoever is authenticated, or a usable key that verifies the body, has a thumbprint, comes in the EAT or the SGX format and is not held by an expired row; every refusal with its cause, and the rows written |
| Tam.Tam.AnswerQueryResponse | internal/tam/tam.go:135-169 | a QueryResponse that answers the TAM is delivered to if its sender is known and asked for attestation if not; any other is answered, or refused, by its attestation |
| Tam.Tam.AddComponents | internal/tam/tam.go:780-815 | appends exactly the component keys that are not there yet |
| Tam.Tam.PickManifests | internal/tam/tam.go:825-840 | picks the latest row of each known component, in order, nothing else |
| Tam.Tam.SaveSentUpdate | internal/tam/tam.go:457-477 | records and answers the Update with the envelopes of the picked rows, failing only for an unfit token or a key that is unknown, revoked or expired, and writes exactly its row and links |
| Tam.Tam.ProcessQueryResponse | internal/tam/tam.go:758-858 | an Update carries exactly the latest manifest of each distinct known component; an empty reply means none is known; it refuses exactly a wrong token, a spent random source, or a key that does not stand; and the rows written |
| Tam.Tam.HandleSuccess | internal/tam/tam.go:170-202 | report by report, a good one about a stored manifest of a known agent retires what the agent held of the component and makes that manifest what it holds, and any other changes nothing; what the agent is believed to hold is the left fold of the reports, and no other agent's belief changes |
| Tam.Tam.HandleError | internal/tam/tam.go:204-238 | files exactly one unresolved report per good report, in order, with its bytes and about a manifest stored under its digest if there is one, if the agent is known, and else none; nothing else changes |
| Tam.Tam.DispatchMessage | internal/tam/tam.go:133-245 | what each message type comes to, exactly: a known sender's answer is delivered to, an unknown one's is met with a request for attestation, an unasked one has to attest itself, a Success is recorded and an Error filed unless not authenticated or no response, and every other type is refused; with all rows written |
| Tam.Tam.ResolveSigned | internal/tam/tam.go:110-246 | the same from before authentication and matching, end to end, by the store, keys and clock alone |
| Tam.Tam.SetEnvelope | internal/tam/manifest_repository_flow.go:23-65 | succeeds, in ordered streams, exactly for what may be registered, and then adds exactly its row; every refusal with its cause; the streams stay ordered |
| Tam.Tam.RevokeTeepAgentKey | internal/tam/keyring.go:94-104 | succeeds exactly for a 32-byte thumbprint with an unrevoked row, which is stamped with the present second; else nothing changes and the answer says which |
| Tam.Tam.Serve | internal/tam/tam.go:110-246 | serving one request extends the run of the machine by that request's thread alone, by undisturbed steps, and the thread ends with the answer given; answer and rows are exactly those of the machine-free description of the service; a vouched report that answers the TAM is accepted; a Success folds its reports into the beliefs wherever digests are unique, a registration passes exactly when it may be made |
| Tam.Tam.StoreIsSound | internal/tam/tam.go:110-246 | after any requests, registrations and revocations the store satisfies the invariants of the machine's reached states, with ordered streams |
| Guarantees.QueryResponseIsServed | internal/tam/tam.go:133-169 | a QueryResponse under a token the TAM waits for is answered with an Update, or with nothing exactly where nothing it lists is known, if a standing key vouches for it; with a request for attestation if none does; a spent random source aside |
| Guarantees.AttestationIsTaken | internal/tam/tam.go:610-677 | an affirmed attestation that answers a challenge, from a sender not authenticated: a new key it proves, by EAT or SGX bundle, is stored and its holder answered; without a proved key it is refused and no agent row is written |
| Guarantees.ReportsAreAccepted | internal/tam/tam.go:170-238 | a Success or an Error is accepted exactly if it is vouched for and answers the TAM, refused as not authenticated or as no response by which of the two is missing, and recorded or filed exactly when accepted |
| Guarantees.VouchedReportIsAccepted | internal/tam/tam.go:170-238 | a report vouched for by a key that still stands at the end is accepted if its token is awaited and refused as no response if not |
| Guarantees.Dispatched | internal/tam/tam.go:110-133 | a message is treated as its kid's if a key vouches for it throughout, as nobody's if none did when it came, and as matched exactly if its token is awaited |
| Guarantees.EmptyPostIsAnswered | internal/tam/tam.go:248-288 | an empty POST is answered with a QueryRequest for the tc-list under a new token whenever the random source has 32 new bytes |
| Service.RegistersWhat | internal/tam/manifest_repository_flow.go:23-65 | with distinct signers a manifest is registered exactly if its signer is known, its number below 2^63 - 1 and it is newer than and signed like every row of its component; it is too large exactly if only its number is wrong |
| Service.RegisteredIsAdded | internal/tam/manifest_repository_flow.go:23-65 | what is registered is added as one row, and every other answer leaves the store alone |
| Faults.FaultsReadAsAbsence | internal/tam/tam.go:367-416 | a statement that fails writes nothing; the request goes on as from an empty store, past the Updates after a failed search of the QueryRequests, past a report that cannot be recorded, and is refused everywhere else |
| Protocol.CountedExactly | internal/tam/tam.go:184-197 | the reports acted on name a 32-byte digest under algorithm -16 and are good, or good in detail with reason 0 |
| Protocol.DigestKeyBytes | internal/tam/tam.go:191-194 | a report is looked up by the bytes 82 2F 58 20 and its digest |
| Envelope.ReportFindsItsManifest | internal/infra/sqlite/agent_status_repo.go:35-41 | a good report of the SHA-256 digest of the manifest stored in a vetted row, kept as an array of -16 and the digest, is looked up to that row or to one whose manifest collides |
| Envelope.ReportedManifestIsBelieved | internal/tam/tam.go:191-200 | and without collisions a Success with it makes that manifest the belief about its component |
| Replies.RepliesAsk | internal/tam/tam.go:248-331 | an empty POST is answered asking for data items 2 under a token, and whoever is to attest is asked for 1 under a challenge; what is refused or accepted without content is answered with no message |
| Replies.QueryRequestBytes | internal/tam/tam.go:254-318 | every QueryRequest byte by byte: handle under 19 or 2, one cipher suite, one profile, and data items 2 for the tc-list and 1 for attestation |
| Replies.UpdateItem | internal/tam/tam.go:758-846 | an Update is type 3 with the envelopes under 9 and the token under 19 |
| Quote.ReportDataIsAt368 | internal/infra/rats/intel_qvl_quote.go:51-90 | exactly which quotes of versions 3, 4 and 5 are accepted, and that their report data is bytes 368 to 432 |
| Quote.ExtractPckCertChain | internal/infra/rats/intel_qvl_pcs.go:452-491 | returns the chain exactly when the quote is laid out around one, with every access in bounds |
| Quote.ChainExactly | internal/infra/rats/intel_qvl_pcs.go:452-491 | walking the offsets finds a chain if and only if the bytes are a serialised quote, with any declared length that fits, around that chain |
| Quote.ChainByBytes | internal/infra/rats/intel_qvl_pcs.go:452-491 | exactly which bytes say where the chain is: version 3 or 4 at 0, a signature length of at least 584 at 432, the authentication data's length at 1012, then type 5 and the chain's own length, all little endian |
| Quote.PrintedChainIsRead | internal/infra/rats/intel_qvl_pcs.go:452-491 | every serialised version 3 or 4 quote with type 5 certification data, whatever follows it, reads back to exactly its chain |
| Quote.ChainCanLieOutside | internal/infra/rats/intel_qvl_pcs.go:480-484 | a quote whose declared signature length ends before the chain that is returned |
| Quote.ChainInsideExactly | internal/infra/rats/intel_qvl_pcs.go:452-491 | of every quote a chain is found in: the chain ends inside the declared signature section if and only if the section is declared at least as long as the fields it is to hold, as given by the quote's own length fields |
| SgxBundle.SplitUndoesConcatenation | internal/tam/sgx_quote_bundle.go:82-101 | splitting undoes concatenating x, y and a nonce, injectively, an empty nonce reading as none |
| SgxBundle.ClaimsAreFunctionOfQuote | internal/tam/sgx_quote_bundle.go:50-67 | beside a raw report data that passes for a quote another passes if and only if it is the same or collides with it under SHA-384; bytes 368 to 432 of the quote are the digest and padding |
| SgxBundle.Decode | internal/tam/sgx_quote_bundle.go:32-48 | a decoded bundle has a quote and raw report data |
| SgxBundle.ProcessedAttestation.PopulateFromRawReportData | internal/tam/sgx_quote_bundle.go:69-101 | fills key and nonce from their places, or changes nothing |
| SgxBundle.ReadClaims | internal/tam/tam.go:630-643 | affirms exactly when the bundle decodes, is bound to the quote and yields a key, with its claims |
| SgxTrust.SgxKeysAreQuoted | internal/tam/tam.go:626-677 | in every reached state of a run whose affirming verdicts on SGX bundles are read from them, a key stored by a request with such a bundle is the one made of raw report data whose SHA-384 digest is bytes 368 to 416 of the quote, and the rest of that data is the issued challenge the request consumed |
| Collateral.KeysIdentifyFamilies | internal/infra/rats/intel_qvl_collateral.go:132-149 | different FMSPC and PCK CA pairs never share a cache key |
| Collateral.HexBytes | internal/infra/rats/intel_qvl_quote.go:119-124 | a byte is two lower-case hexadecimal digits, the high half first |
| Collateral.KeyWords | internal/infra/rats/intel_qvl_collateral.go:132-149 | the key is "fmspc-", twelve lower-case hexadecimal digits, "-pckca-" and "processor" or "platform" |
| Collateral.FamilyExactly | internal/infra/rats/intel_qvl_collateral.go:132-149 | a quote belongs to a family exactly if six FMSPC bytes are found in it and the chain it is laid out around was issued by the CA |
| Collateral.HexIsInjective | internal/infra/rats/intel_qvl_quote.go:119-124 | the hexadecimal form determines the bytes |
| Collateral.NearestUpdate | internal/infra/rats/intel_qvl_pcs.go:339-367 | the two loops compute the nearest update over the four parts in order, or fail on an unreadable one |
| Collateral.ReadingsAre | internal/infra/rats/intel_qvl_pcs.go:339-367 | the parts in the order read; a missing part, and a revocation list that reads as the zero time, counts as absent |
| Collateral.ExpiryIsNoSooner | internal/infra/rats/intel_qvl_collateral.go:173-183 | an entry expires seven days from now or at one of the times read, no sooner |
| Collateral.HonoursUnlessWiped | internal/infra/rats/intel_qvl_collateral.go:173-183 | the expiry is before every non-zero update time if and only if no zero time has wiped a nearer one |
| Collateral.ZeroTimeWipes | internal/infra/rats/intel_qvl_pcs.go:344-366 | a CRL due in a day is forgotten when the QE identity reports the zero time |
| Collateral.Cache.Get | internal/infra/rats/intel_qvl_collateral.go:50-77 | serves an entry exactly if one is stored under the family of the quote and has not expired, and deletes an expired one; fails exactly for a quote without a family |
| Collateral.Cache.Put | internal/infra/rats/intel_qvl_collateral.go:81-119 | stores the collateral under its family with its expiry, or changes nothing |
| Collateral.Cache.QuoteCollateral | internal/infra/rats/intel_qvl_verifier.go:210-240 | serves a valid entry without fetching, else exactly what was fetched, stored when it can be |
| Collateral.Cache.ServedIsCurrent | internal/infra/rats/intel_qvl_collateral.go:152-154 | what is served was stored for the same family less than seven days ago and is before every non-zero update time it reported, unless one was wiped |
| Cbor.DecodeUndoesEncode | internal/tam/teep_message.go:61-76 | decoding an encoded item and whatever follows gives both back, and fails exactly on text that is not valid UTF-8 |
| Cbor.LongHeadBytes | internal/tam/teep_message.go:61-76 | an argument takes the fewest of 1, 2, 4 or 8 bytes that hold it, most significant first |
| Cbor.LongHeads | internal/tam/teep_message.go:78-90 | and may be decoded from more bytes than it needs |
| Cbor.ShortForms | internal/tam/teep_message.go:61-76 | the initial byte of every item type and the bytes of the simple values |
| Cbor.ParseTakesAll | internal/tam/teep_message.go:78-90 | a message is one item with nothing after it |
| Utf8.TextExactly | internal/tam/teep_message.go:78-90 | text is accepted exactly if it is a sequence of Unicode scalar values, each in its one UTF-8 form |
| Cbor.EncodeIsPrefixFree | internal/tam/teep_message.go:61-76 | no encoding begins another, text of any bytes included |
| Cbor.EncodeIsInjective | internal/tam/tam.go:191-194 | different items have different encodings, text of any bytes included, so a digest key determines the digest |
| Cbor.ComponentKeyDecodes | internal/tam/tam.go:785 | a component's store key decodes back to the component |
| Cbor.ComponentKeysAreDistinct | internal/server/handler.go:280 | different components never share a store key |
| Cbor.ComponentBytes | internal/tam/tam.go:785 | a missing component and a missing part are null, an empty component is an empty array, a part is a byte string |
| TeepCodec.UnmarshalUndoesMarshal | internal/tam/teep_message.go:61-138 | every message of the five types, and no other, encodes; it decodes to itself with uncarried fields cleared and empty optionals absent, exactly when its texts are valid UTF-8 |
| TeepCodec.OptionsRoundTrip | internal/tam/teep_message.go:249-269 | the nineteen options survive the round trip, empty ones becoming absent |
| TeepCodec.OptionsOnTheWire | internal/tam/teep_message.go:249-269 | each of the nineteen options travels under its own number, absent exactly when it is empty |
| TeepCodec.OptionKeysOnTheWire | internal/tam/teep_message.go:249-269 | nothing else travels among them, and their numbers ascend |
| TeepCodec.StructuresOnTheWire | internal/tam/teep_message.go:463-477 | the items listed in options, suites and profiles: numbers, arrays, maps under their own numbers, null for what is missing |
| TeepCodec.MessagesOnTheWire | internal/tam/teep_message.go:61-76 | the five messages are arrays of the type, the options and what goes with the type, and there is no sixth |
| TeepCodec.OnlyTheseShapes | internal/tam/teep_message.go:78-138 | only arrays of these shapes decode, and the receiver's other fields stay |
| TeepCodec.PresentOptionsRead | internal/tam/teep_message.go:249-269 | an option the data carries reads as its entry under its number says, null as nothing, and an entry of another type is refused: the byte strings, texts, numbers and lists of byte strings |
| TeepCodec.AbsentOptionsStay | internal/tam/teep_message.go:78-138 | an option the data does not carry stays as the receiver had it |
| TeepCodec.NormalFormsAreFaithful | internal/tam/teep_message.go:61-138 | a normal message comes back as it was, and equal encodings have equal normal forms |
| TeepCodec.Receiver.Unmarshal | internal/tam/teep_message.go:78-138 | fills the receiver with what the data says and leaves what it does not carry |
| TeepCodec.RequestDataItem | internal/tam/teep_message.go:374-406 | below 16, with bit 1 for attestation, 2 for the tc-list, 4 for extensions and 8 for suit-reports |
| TeepCodec.DataItemNumbers | internal/tam/teep_message.go:349-389 | the sum of 1, 2, 4 and 8 for what is asked; 2 for the tc-list alone, 1 for attestation alone |
| Replies.RequestRemembers | internal/tam/tam.go:254-318 | a QueryRequest asks on the wire for what is remembered of it, and carries its handle and no other |
| TeepCodec.BitsAreReadBack | internal/tam/teep_message.go:374-406 | asking for what the bits 1, 2, 4 and 8 say gives the low four bits back |

## Left out

- HTTP routing, methods, headers and body limits, configuration, logging, the command line and the admin console: no state worth an invariant.
- COSE, EAT, X.509, PEM, JSON and hash internals, the cgo calls, PCS and PCCS fetching and the Veraison client: foreign code, represented by oracles.
- Decoding of incoming COSE messages and reports: the machine takes them decoded; the codec is verified separately.
- The choice of verifier backend from the payload format, and the string test on the format: three formats are distinguished.
- SQLite beyond statement atomicity, transactions, UNIQUE constraints and the orders the queries ask for; foreign keys are invariants here, not checks.
- Repositories.Store: its statements never fail for lack of the database; store failures at every statement are in the machine.
- Repositories.Store.GenerateUniqueToken: the random source is a finite tape that ends in failure, because termination of the retry loop needs fairness of the source.
- Registry.SerialRegistrationKeepsStreams: holds for registrations that do not overlap, because the code checks and inserts without a transaction; the exact condition is `Registry.OverlapExactly`.
- Continuations.NoHoldingForDeadKey: continuations range over all decoded registrations, whatever digest they carry; a report of a digest that no manifest has could not land through `Envelope.AddTcManifest`.
- Envelope.DigestLookupIsFunction: a stored digest is kept as it was encoded, so a manifest signed over a digest in another than the shortest encoding is stored and never found by a report, which is looked up by the shortest one.
- Envelope.SkipTag: on fewer than two bytes finds no tag; in the program the slice's spare capacity makes the comparison safe.
- TeepCodec: null in place of a number or a structure, arrays of numbers in place of a byte string, indefinite lengths, tags, floats and the library's limits on element counts are not decoded here.
- Collateral.Cache: the file system is a map from names to entries; failing reads and writes of files are not modelled.
- Demo seeding, which inserts manifests and keys around the checked paths; runs start from an empty store with given signing keys.
- Signing of outgoing messages: in the machine a failure to sign shows as a failure of the statement after it; in `Tam.Tam` it does not occur.
- Diagnostic renderings, result-name tables and the classification of verification results.
