# TYZ relay: verified model

A relay platform has a panel (a server with a database) and agents (one process per node). The panel
renders each node's services from its tables, hands them out under a version number, issues the
certificates of the links between nodes, and keeps the billing ledger. The agent keeps one listener
per service, moves bytes between sockets through token buckets, counts them, and uploads the counts.
This project models the parts where those two talk past each other most easily, and proves what
holds of them in every run.

Code that updates state in place is a class here, with methods proved equal to functions on values;
the lemmas are about those functions, about runs of them, and about what the classes together keep.

| files | part |
|---|---|
| `Basics`, `Names`, `Model` | optional values and stable sorting, service names and their order, the payload's entities |
| `Supervisor`, `SupervisorConvergence`, `SupervisorRun`, `SupervisorService` | the agent's registry of listeners over a kernel that is a set of bound ports |
| `SampleBuffer`, `Ledger`, `Ingest`, `IngestExact`, `BillingRun`, `BillingLives` | counters, upload buffer, delta ledger, one upload field by field, and whole runs with crashes, lost replies and restarts, exact over all lives of an agent |
| `RateLimit`, `RateRun`, `Throughput`, `Splice`, `SplicePaced` | token buckets, their interleavings, what a flow is granted at least, the resumable splice copy, and the copy over shared buckets |
| `Der`, `DerValues`, `Certificate`, `CertificateSize`, `CertificateExtensions` | the hand-written X.690 encoder, its reader, certificates, and what a relying party reads in them |
| `TlsMaterial`, `TlsService`, `TlsCertificates` | issuing, replacing and renewing the certificate set, and the set as it reads |
| `Ports`, `ConfigRender`, `RenderRoles`, `RenderAgreement`, `EndToEnd` | port allocation, the renderer, what two nodes' payloads agree on, and what a client reaches once they are applied |
| `ConfigSync`, `ConfigApply`, `ConfigHeal`, `ConfigCerts` | versioned snapshots, conditional fetches, adoption and restart; the same with the supervisor behind them; when a poll heals a listener; when rotated certificates are in use |
| `Quota`, `QuotaSweep` | stop decisions off the billing ledger, and the sweep that takes stopped rules out of the snapshots |
| `PushMode`, `Health`, `HealthReport` | the push channel's mode, heartbeat ingest, and a heartbeat from listener to rule status |

Where the code does not do what its comments say, the model follows the code and states exactly when
the two agree:

- `restart` is documented as rebuilding from the last desired config; a service that still runs an
  older entry is rebuilt from that older entry (`RestartKeepsOldEntry`), and one that is down from the
  first entry of its name, where an apply runs the last (`RestartFindsFirst`, `RestartServesLast`).
- The apply loop rebuilds dead accept loops so that they do not wait for the next config edit; but an
  agent that adopted the snapshot is only told "not modified", and its polls never reach that loop
  (`DeadUnnoticed`). A poll heals if and only if the panel holds a newer version whose payload is
  accepted and still wants the service, and the rebuild's guard holds at its turn (`PollHeals`).
- Changed certificate files are meant to rebuild the TLS services that embed the old ones. The files
  are written before the payload is accepted and the change is reported once, so a rotation that comes
  with a payload that is not applied in full is not seen again (`RotationLost`); an adopted version's
  material is in use exactly under the condition of `RotationInUse`.
- The renderer's comment says same-name services never collide on a node. The exit loop also runs on
  the entry node, so its payload holds a second service of the same name, and the agent keeps the one
  with the larger port (`EntryKeepsPort`, `EntryDisplaced`).
- The renderer is described as never putting a rule's limit into the payload; the code does
  (`RuleReaches`).
- A bucket's ready instant is described as the one at which another chunk exists; as milliseconds are
  rounded down it may come short of that, by less than a byte and a millisecond's worth (`ReadyTight`).
- The snapshot upsert claims that a recreated row always has a larger version; it does exactly when
  the second of its creation exceeds every version issued before (`RecreatedSeen`, `RecreatedHidden`).
- The push channel is documented as promoted by a successful probe; with the default probe interval
  the first failed probe promotes it too (`ProbeAgesOut`, `StaysDemoted`).
- A profile saved before the first domain freezes identity values derived from an absent domain
  (`OrderMatters`).
- Lengths from two gigabytes on, object identifier arcs from 31 bits on and years outside 1950 to 2049
  are encoded, but not so that a reader gets them back (`ReadInvertsTlv`, `OidRoundTrip`, `UtcRoundTrip`).
- The liveness row's name is said never to collide with a service; a report may carry it, and then
  overwrites the row's state (`LivenessKept`).

## Model

| member | source | states |
|---|---|---|
| SupervisorConvergence.RetryConvergence | apps/agent/src/runtime/mod.rs:79-180 | with distinct desired ports that only the agent's own listeners hold, some number of repeated applies ends without failures if and only if no services wait for each other's ports in a circle |
| SupervisorConvergence.RetriesConverge | apps/agent/src/runtime/mod.rs:79-180 | without a circle, as many rounds as there are pending services leave every desired service running exactly its entry and no failure |
| SupervisorConvergence.RetriesStuck | apps/agent/src/runtime/mod.rs:128-162 | services on a circle keep the listener they have and stay listed failed through any number of rounds |
| SupervisorConvergence.RoundProgress | apps/agent/src/runtime/mod.rs:104-176 | a round without a circle creates none and strictly shrinks the set of services not yet as desired |
| SupervisorConvergence.NoNewCycle | apps/agent/src/runtime/mod.rs:104-176 | every circle after a round was there before it |
| Supervisor.ApplyPostState | apps/agent/src/runtime/mod.rs:79-180 | after an apply each desired name either serves exactly its entry and port or is listed failed, never both; nothing else runs; a failed one is down or unchanged; ports and listeners agree |
| Supervisor.ApplyTurn | apps/agent/src/runtime/mod.rs:104-176 | what an apply makes of each desired service: a live, unchanged listener stays the one it was, any other is built anew if and only if the guard of its rebuild holds at its turn |
| Supervisor.ApplyCounts | apps/agent/src/runtime/mod.rs:79-180 | the outcome counts exactly the services started, rebuilt and removed, with one failure for each desired service that does not serve |
| Supervisor.FaultMeans | apps/agent/src/runtime/service.rs:87-116 | exactly when a spawn fails and with which error: a taken port before missing certificates |
| Supervisor.ApplyIdempotent | apps/agent/src/runtime/mod.rs:79-180 | applying the same set again after a full apply creates, updates and removes nothing and changes nothing |
| Supervisor.ApplyAborts | apps/agent/src/runtime/mod.rs:111-163 | exactly which live connections an apply aborts: those of listeners rebuilt for a changed entry or rotated material whose new entry uses TLS, unless the old listener was kept |
| Supervisor.SwapOrder | apps/agent/src/runtime/mod.rs:128-143 | binding the new port before closing the old one ends in the same world as closing first |
| SupervisorRun.RunSound | apps/agent/src/runtime/mod.rs:50-256 | in every run of applies, restarts, loop deaths, foreign binds and connections that are accepted, end and are deregistered later: ports have one owner, the names reported are those of the last set, no connection is registered twice and no registry exceeds its cap |
| SupervisorRun.EmptyRunSound | apps/agent/src/runtime/mod.rs:53-61 | so every run of a new supervisor does |
| SupervisorRun.ConnectionLoss | apps/agent/src/runtime/service.rs:162-188 | a live connection ends only by closing, by a restart of its service, or by a rebuild for a changed TLS entry |
| SupervisorRun.RestartOutcome | apps/agent/src/runtime/mod.rs:184-221 | a restart reports success exactly when the service then freshly serves the entry it was rebuilt from; a failed one leaves it down; other listeners are untouched |
| SupervisorRun.RestartAborts | apps/agent/src/runtime/service.rs:160-188 | exactly which live connections a directive aborts, whether or not the rebuild succeeds: those registered at the service's listener, TLS or plain |
| SupervisorRun.RestartDropsAccepted | apps/agent/src/runtime/mod.rs:182-221 | in every run, after a directive no connection is live that the replaced listener had accepted |
| SupervisorRun.RestartFailures | apps/agent/src/runtime/mod.rs:184-221 | failure rows of other services stay; the service has one afterwards if and only if the directive failed and it was running or had one |
| SupervisorRun.RestartServesLast | apps/agent/src/runtime/mod.rs:182-221 | a successful restart serves the entry an apply would run if and only if a running service was running it, or a service that was down finds it first under its name |
| SupervisorRun.RestartKeepsOldEntry | apps/agent/src/runtime/mod.rs:184-194 | a run from an empty supervisor in which a restart rebuilds the old entry, reports success and clears the failure |
| SupervisorRun.RestartFindsFirst | apps/agent/src/runtime/mod.rs:201-208 | a run in which a service that is down is restarted with the first of two entries of its name, reports success, and does not serve the one the apply wanted |
| SupervisorRun.SortKeepsLast | apps/agent/src/runtime/mod.rs:81-90 | the kept, sorted set has the same last entry of every name as the payload |
| SupervisorService.SupervisorService.Apply | apps/agent/src/runtime/mod.rs:79-180 | the in-place loops leave exactly the world and outcome of the function the lemmas are about |
| SupervisorService.SupervisorService.ApplyService | apps/agent/src/runtime/mod.rs:109-175 | one iteration: keep, heal, same-port rebuild or bind-first swap |
| SupervisorService.SupervisorService.Restart | apps/agent/src/runtime/mod.rs:184-221 | the restart directive on the registry in place |
| SupervisorService.SupervisorService.HealthSnapshot | apps/agent/src/runtime/mod.rs:227-251 | sorted rows that name exactly the services of the last set, each with its true condition, and with an error it failed with if it is down |
| BillingLives.ExactOverLives | apps/server/src/services/traffic.ts:149-160 | across any number of lives and whatever was stored before: what the ledger gains and what is missed are together the bytes of the finished lives, the last stored value of the present one and the batch deltas of torn ingests, to the byte; missed is what a restart found unsent and what a life's first stored reading hides |
| BillingLives.ExactInLaterLife | apps/server/src/services/traffic.ts:149-160 | within one life the ledger falls short of the last stored value by exactly the counter an earlier life left behind if the first reading stored has passed it in both directions, and by nothing otherwise |
| BillingRun.ExactWithinLife | apps/server/src/services/traffic.ts:107-232 | within one life of the agent, starting from no stored counter, a rule's ledger grows by exactly the last stored cumulative value plus the batch deltas of ingests torn between ledger and counters, whatever was lost or re-sent |
| BillingRun.NeverOverbills | apps/agent/src/control.rs:229-241 | across any number of restarts the ledger never exceeds the bytes the agent counted plus the deltas of torn ingests |
| BillingRun.NoTornNoExposure | apps/server/src/services/traffic.ts:183-232 | without a torn ingest nothing is exposed to double counting |
| BillingRun.StepBalance | apps/server/src/services/traffic.ts:148-232 | every event moves ledger, settled bytes and exposure together |
| BillingRun.ChargedWithin | apps/server/src/services/traffic.ts:192-216 | over any run, however torn or restarted, a rule's charge differs from its real bytes times the rate by at most half a byte per row written, in each direction |
| Ledger.FoldPerRule | apps/server/src/services/traffic.ts:148-180 | a batch bills an authorized rule exactly its own service's deltas, a rule the node does not serve nothing, and remembers each newest reading |
| Ledger.Telescope | apps/server/src/services/traffic.ts:149-160 | readings in order have deltas that add up to newest less stored |
| Ledger.RoundError | apps/server/src/services/traffic.ts:192-201 | a charge is the whole number nearest to real bytes times rate, the upper one from the middle |
| Ledger.TotalAfterUpsert | apps/server/src/services/traffic.ts:202-216 | whatever hours rows fall into, a rule's total in the real or the charged column grows by exactly what the rows carry for it |
| Ledger.AddedRows | apps/server/src/services/traffic.ts:192-216 | any prefix of one batch's rows, as a crash leaves it, carries a rule's bucket once or not at all |
| IngestExact.IngestOne | apps/server/src/services/traffic.ts:145-232 | a complete ingest seen from one service that reported once: its counter is the reading; if the node serves the rule, the row of rule and hour grows in each direction by the difference to the stored counter, or by all of it after a reset, and by its rounded charge, under the right owner and node; otherwise that row stays |
| IngestExact.IngestElsewhere | apps/server/src/services/traffic.ts:145-232 | rows of other hours and rules, and counters of other nodes and services, stay |
| Ingest.TrafficDb.IngestTraffic | apps/server/src/services/traffic.ts:77-232 | the chunked reads and writes leave the tables as the unchunked fold does; a crash anywhere leaves a prefix with counters touched only after the whole ledger, and returns no billed rules |
| SampleBuffer.BufferMeaning | apps/agent/src/stats.rs:140-192 | after any history the buffer is exactly the insertions not taken out since, in order, at most `max` distinct keys, each with newest values and the connection peak of all pushes since; insertions and removals are read off the history alone |
| SampleBuffer.KeptExactly | apps/agent/src/stats.rs:148-192 | a key is in the buffer if and only if it was pushed since it was last taken out, by a commit or as the oldest of a full buffer |
| SampleBuffer.PushesKept | apps/agent/src/stats.rs:148-172 | every push went into an insertion that was not taken out before it |
| SampleBuffer.Buffer.Push | apps/agent/src/stats.rs:148-172 | the backward search, merge and drop-oldest in place |
| SampleBuffer.Flush.Run | apps/agent/src/control.rs:229-241 | a flush terminates; acknowledged chunks and what is left are the merged buffer, in order and exactly once; every chunk but the last is full; success means nothing is left |
| RateRun.WindowFlowBound | apps/agent/src/ratelimit.rs:54-136 | between any two points of any run, however `available` and `take` calls interleave and however long the buckets idled before, a flow is granted at most the burst and rate times the time between and a millisecond, counted at each bucket from what it had; a grant under way counts as had only where it has already asked the bucket |
| RateRun.WindowTotal | apps/agent/src/ratelimit.rs:54-136 | counting nothing as had but what was granted: at most two bursts and rate times the time between and a millisecond |
| RateRun.WindowSharedBound | apps/agent/src/ratelimit.rs:121-136 | in such a window the flows sharing a bucket are together granted at most one such allowance for each flow granted anything |
| RateRun.WindowSerialBound | apps/agent/src/ratelimit.rs:121-136 | when grants do not overlap, all flows together stay within one such allowance |
| RateRun.FlowBound | apps/agent/src/ratelimit.rs:54-136 | since a bucket's creation, without the extra millisecond: burst plus rate times its age |
| RateRun.SharedBound | apps/agent/src/ratelimit.rs:121-136 | since creation, flows sharing a bucket are granted at most the number of flows granted anything times its allowance |
| RateRun.SerialBound | apps/agent/src/ratelimit.rs:121-136 | since creation and without overlapping grants, at most one allowance |
| RateRun.FactorReached | apps/agent/src/ratelimit.rs:121-136 | for every number of flows some run grants exactly that many allowances, so the factor cannot be lowered |
| RateRun.StepCovered | apps/agent/src/ratelimit.rs:54-77 | the invariant behind the bounds, over every step |
| Throughput.ThroughputBound | apps/agent/src/ratelimit.rs:54-77 | from any point of any run: a flow alone on a bucket that asks for all of it is granted at each look at least rate times the time since the one before, less a byte and a millisecond's worth, or a full burst, whatever other flows do at other buckets |
| Throughput.SteadyGets | apps/agent/src/ratelimit.rs:54-77 | looking often enough it gets the rate over the whole time, but for a byte and a millisecond's worth at each look |
| RateLimit.ReadyMeansTokens | apps/agent/src/ratelimit.rs:80-90 | for every rate of at least 1 a bucket left alone until its ready instant then holds a byte, despite truncation and floor division |
| RateLimit.RefillBound | apps/agent/src/ratelimit.rs:54-63 | refills never outrun rate times time |
| RateLimit.RefillKeepsUp | apps/agent/src/ratelimit.rs:54-63 | nor do they fall behind: unless the bucket is full, a refill is less than a byte and a millisecond's worth short of rate times the time since the last |
| RateLimit.NewBucketWorth | apps/agent/src/ratelimit.rs:40-52 | a new bucket is full; its burst is two tenths and its chunk one tenth of a second's worth, to the byte, within their bounds |
| RateLimit.ReadyTight | apps/agent/src/ratelimit.rs:80-90 | a ready instant is now if and only if there is a chunk; otherwise there is none a millisecond before it, and at it less than a byte and a millisecond's worth is missing |
| RateLimit.Pacer.Grant | apps/agent/src/ratelimit.rs:121-136 | the grant is the largest amount within the wish and every bucket, taken in full from each |
| RateLimit.Pacer.Deadline | apps/agent/src/ratelimit.rs:138-144 | the returned instant is now or some bucket's ready instant, no bucket's is later, and from it on every bucket holds a byte |
| RateLimit.Pacer.GrantAfterReady | apps/agent/src/ratelimit.rs:121-144 | a positive request after the deadline is granted |
| RateLimit.Paced.PollWrite | apps/agent/src/ratelimit.rs:198-216 | one poll draws its grant, at most the write, in full from every bucket before the stream below is offered it, and answers as that stream does, ready, pending or failed; without a grant it is pending and the stream is not asked |
| RateLimit.Paced.Write | apps/agent/src/ratelimit.rs:198-216 | a write polled again and again draws on the buckets at every poll that is granted anything; only the last grant reaches the stream |
| RateLimit.PollsBurn | apps/agent/src/ratelimit.rs:205-216 | over the polls of a write: passed is at most granted, granted at most the polls that were granted anything times the write's length, and tokens are lost if and only if the stream below was not ready for, refused, or took less than some poll's grant |
| Splice.Dir.PollCopy | apps/agent/src/runtime/zero.rs:179-249 | source consumed equals delivered in order plus pipe; count, live counter and delivered bytes move together; never more than granted, in total and since any poll; a clean finish delivered and flushed the whole source; no sleep on a silent reader with unflushed bytes; enough willing answers finish it |
| Splice.Dir.WriteOut | apps/agent/src/runtime/zero.rs:212-242 | the inner loop: grant, wait, partial writes, zero-write error |
| Splice.Dir.ReadIn | apps/agent/src/runtime/zero.rs:186-210 | the read step with its flush before sleeping |
| Splice.BidiSpliceCopy.PollBoth | apps/agent/src/runtime/zero.rs:284-333 | every success returns both exact counts and at least one side complete; kept results never change; a side shut down exactly when its result is kept; errors first; the only other answers come from a shutdown |
| SplicePaced.CopyWithin | apps/agent/src/runtime/zero.rs:211-242 | a direction whose allowances are one flow's grants between two points of a run of shared buckets delivers in between at most two bursts and rate times the time and a millisecond at each bucket |
| Der.ReadInvertsTlv | apps/server/src/services/tls.ts:34-52 | reading at any offset returns tag, content, raw octets and next offset of an encoded TLV if and only if the content is below two gigabytes |
| Der.OnlyTlvRead | apps/server/src/services/tls.ts:226-238 | octets the reader returns as raw, with more behind them, are one TLV |
| Der.MinimalLength | apps/server/src/services/tls.ts:34-46 | short form below 128, otherwise no shorter length octets have that value (sections 8.1.3 and 10.1 of X.690) |
| Der.TlvPrefixFree | apps/server/src/services/tls.ts:34-52 | equal strings that begin with TLVs agree in tag, content and rest |
| Der.SplitJoin | apps/server/src/services/tls.ts:22-31 | a concatenation of TLVs splits back into exactly those |
| Der.IntegerCanonical | apps/server/src/services/tls.ts:73-79 | the INTEGER content has the unsigned value, is minimal, and is the only minimal content with it (section 8.3 of X.690) |
| Der.EncodeTlv | apps/server/src/services/tls.ts:34-52 | the byte loop with its 32-bit shift computes the TLV the lemmas are about |
| Der.DecodeTlv | apps/server/src/services/tls.ts:226-238 | the reader's loop likewise |
| Der.EncodeInt | apps/server/src/services/tls.ts:73-79 | the stripping loop likewise |
| DerValues.OidRoundTrip | apps/server/src/services/tls.ts:55-69 | an object identifier decodes to its arcs if and only if its first subidentifier is below 128 and every later arc below 2^31 |
| DerValues.EncodeOid | apps/server/src/services/tls.ts:55-69 | the base-128 loops compute that encoding |
| DerValues.UtcRoundTrip | apps/server/src/services/tls.ts:89-93 | all fields read back, the year if and only if it lies from 1950 to 2049 (section 4.1.2.5.1 of RFC 5280) |
| Certificate.SpkiRoundTrip | apps/server/src/services/tls.ts:241-249 | with issuer and subject one TLV each, the key read out of an issued certificate is the one given if and only if that is itself one TLV |
| CertificateSize.SmallFits | apps/server/src/services/tls.ts:152-198 | the size bound the round trip asks for is met whenever the spec and the signature bring along at most sixteen million octets |
| Certificate.FieldOrder | apps/server/src/services/tls.ts:152-190 | the signed content splits into version, serial, algorithm, issuer, validity, subject, key and extensions in the order of section 4.1 of RFC 5280 |
| Certificate.CertificateParts | apps/server/src/services/tls.ts:381-411 | the certificate splits into the signed part, algorithm and signature |
| CertificateExtensions.ConstraintsRead | apps/server/src/services/tls.ts:154-159 | a reader that takes the certificate apart and looks extensions up by their decoded identifiers finds critical basic constraints that read cA TRUE for an authority and FALSE otherwise |
| CertificateExtensions.KeyUsageRead | apps/server/src/services/tls.ts:160-164 | it finds a critical key usage naming certificate and list signing for an authority, digital signatures otherwise, and nothing else |
| CertificateExtensions.KeyIdsRead | apps/server/src/services/tls.ts:165-168 | both key identifiers read back |
| CertificateExtensions.NameRead | apps/server/src/services/tls.ts:170-172 | the alternative name is there if and only if one was given, and reads back |
| CertificateExtensions.PurposeRead | apps/server/src/services/tls.ts:173-175 | the purpose is there if and only if one was given, and reads back if and only if it is encodable |
| CertificateExtensions.FieldsRead | apps/server/src/services/tls.ts:176-190 | the other fields read as version 3, the serial number, ECDSA with SHA-256, issuer, not-before, not-after, subject and key; an instant if and only if its year lies from 1950 to 2049 |
| CertificateExtensions.SignatureRead | apps/server/src/services/tls.ts:192-198 | behind them the same algorithm, and a bit string that holds the two halves of the signature as integers |
| CertificateExtensions.NameReads | apps/server/src/services/tls.ts:100-105 | a name reads as the organization, if there is one, and then the common name |
| Certificate.ExtensionsRead | apps/server/src/services/tls.ts:116-186 | the extension list splits into the spec's extensions in order, each into identifier, critical mark and value |
| Certificate.EcdsaReads | apps/server/src/services/tls.ts:194-198 | the signature splits into two minimal integers with the values of the raw halves |
| Certificate.NameInjective | apps/server/src/services/tls.ts:100-105 | two names are the same octets if and only if common name and organization agree |
| Certificate.ReadSpki | apps/server/src/services/tls.ts:241-249 | the walk computes the function of the round trip, errors included |
| Certificate.EncodeKeyUsage | apps/server/src/services/tls.ts:125-131 | the bit loop keeps the bits up to the last set one |
| TlsMaterial.RunGood | apps/server/src/services/tls.ts:508-676 | in every run of domain, profile, ensure and renew operations, from an empty or legacy store, the stored set is absent or complete, the resolved identity is the authority's, leaves are issued by its key and name, the server certificate is for the current domain |
| TlsMaterial.StepIssues | apps/server/src/services/tls.ts:415-483 | in every run an operation leaves each certificate as it was or issues it anew at its instant: named for the domain and identity in effect afterwards, valid for the days in effect afterwards, under a key never used before |
| TlsMaterial.FirstDefaults | apps/server/src/services/tls.ts:314-332 | a fresh platform's first domain gets an authority named for it with the last two labels as organization, ten years, and leaves for one |
| TlsMaterial.LegacyKeepsName | apps/server/src/services/tls.ts:314-332 | a deployment from before the settings keeps its fixed identity through renewal |
| TlsCertificates.SetReads | apps/server/src/services/tls.ts:423-483 | read octet by octet, only the authority's certificate of a stored set is an authority's, the server's names the current domain and is for servers, the client's names no host and is for clients |
| TlsCertificates.SetChains | apps/server/src/services/tls.ts:423-483 | every certificate of the set chains to the authority's: issuer field to subject field, authority key to subject key |
| TlsMaterial.AnchorStable | apps/server/src/services/tls.ts:587-676 | the trust anchor changes only by an identity edit or renewal of an authority with less than 90 days left |
| TlsMaterial.SetDomainGood | apps/server/src/services/tls.ts:508-519 | a change re-issues the server leaf under the new domain, leaves authority and client alone, and both flags are exact |
| TlsMaterial.SetProfileGood | apps/server/src/services/tls.ts:635-676 | the wanted profile is in effect afterwards, the set is linked under it, and the report says exactly what was replaced |
| TlsMaterial.RenewGood | apps/server/src/services/tls.ts:587-622 | after renewal the authority has at least 90 days and the leaves 30; the result says truly whether anything changed |
| TlsMaterial.RenewSettles | apps/server/src/services/tls.ts:587-622 | renewing again at once changes nothing |
| TlsMaterial.EnsureComplete | apps/server/src/services/tls.ts:534-575 | ensure fails exactly without a domain; otherwise all three rows are there, whatever was stored |
| TlsMaterial.StartsGood | apps/server/src/services/tls.ts:314-332 | an empty store, and a legacy one without identity settings, satisfy the invariant |
| TlsMaterial.OrderMatters | apps/server/src/services/tls.ts:646-658 | saving a profile before or after the first domain gives the same authority name if and only if both names were given |
| TlsService.TlsTables.EnsureMaterial | apps/server/src/services/tls.ts:534-575 | the table updates compute the ensure function |
| TlsService.TlsTables.SetTlsDomain | apps/server/src/services/tls.ts:508-519 | likewise for the domain |
| TlsService.TlsTables.SetTlsProfile | apps/server/src/services/tls.ts:635-676 | likewise for the profile |
| TlsService.TlsTables.RenewMaterial | apps/server/src/services/tls.ts:587-622 | likewise for renewal |
| Ports.NextNode | apps/server/src/db/repo.ts:173-180 | the next node gives a rule the next port of the range, cyclically |
| Ports.CollisionExactly | apps/server/src/db/repo.ts:173-180 | two rules on a node get one port if and only if the width divides 31 times the difference of their ids |
| Ports.ConsecutiveDistinct | apps/server/src/db/repo.ts:173-180 | when 31 does not divide the width, any width consecutive ids get distinct ports |
| Ports.CloseCollision | apps/server/src/db/repo.ts:173-180 | when it does, ids width/31 apart already collide |
| Ports.AllocateInRange | apps/server/src/db/repo.ts:173-180 | an allocated port lies in the range, and one is allocated exactly for a usable range |
| RenderRoles.RoleMeans | apps/server/src/db/repo.ts:261-279 | a tunnel is rendered if and only if it has one entry link and no middle hops; its node enters unless it also holds an exit link, other nodes with one exit |
| RenderRoles.ExitsMean | apps/server/src/db/repo.ts:266-302 | an entry dials every exit link of the tunnel in order of index and id, or only the first where the link runs TLS |
| RenderRoles.TlsMeans | apps/server/src/db/repo.ts:281-296 | a link runs TLS if and only if the tunnel asks for it and its first exit speaks it |
| RenderRoles.EntryDials | apps/server/src/db/repo.ts:303-347 | an entry's service exists if and only if the first exit has a port for the rule, and dials one address for every exit that has one, in link order, with the entry link's strategy where there is a choice |
| RenderRoles.RuleReaches | apps/server/src/db/repo.ts:305-374 | name, port, limit, target and TLS mark of both kinds of service |
| RenderAgreement.MarksHaveMaterial | apps/server/src/db/repo.ts:384-397 | a rendered payload that marks a service for TLS carries the material |
| RenderAgreement.TwoHop | apps/server/src/db/repo.ts:218-383 | every address an entry dials is an exit node's, whose own payload has its agent listen there for the rule with the rule's target, TLS on one side exactly when on the other |
| RenderAgreement.AgentKeeps | apps/server/src/db/repo.ts:292-376 | through the loops, the sort and the agent's map exactly one candidate per rule survives: the larger port of entry and exit rendering, the exit's on a tie |
| RenderAgreement.EntryKeepsPort | apps/server/src/db/repo.ts:344-370 | the entry listens on the rule's port if and only if it has no exit rendering or that one's port is not larger, and keeps its entry service if and only if smaller |
| RenderAgreement.EntryDisplaced | apps/server/src/db/repo.ts:344-370 | an ordinary two-node tunnel whose entry forwards past the exit on another port |
| RenderAgreement.ExitReached | apps/agent/src/runtime/mod.rs:87-176 | at the exit, dialling the port of a kept service that is not failed reaches that service only; two on one port cannot both serve |
| RenderAgreement.SortNamed | apps/server/src/db/repo.ts:376-376 | sorting by name and port makes the last service of a name the winner by port |
| EndToEnd.Delivered | apps/server/src/db/repo.ts:243-398 | with a rule's service up on its entry and on the exit nodes: every address the entry's listener dials is an exit node's, and whoever listens on the dialled port there forwards to the rule's target |
| EndToEnd.DeliveredDirect | apps/server/src/db/repo.ts:314-321 | without exits the entry forwards to the rule's target itself |
| EndToEnd.EntryForwards | apps/server/src/db/repo.ts:292-370 | where the entry's own exit rendering has no port as large, its listener on the rule's port forwards to exactly the rendered targets |
| EndToEnd.UpAfterApply | apps/agent/src/runtime/mod.rs:79-180 | an apply of a node's payload brings a rule's service up if and only if its name is not listed failed |
| EndToEnd.UpAfterRetries | apps/agent/src/control.rs:79-101 | with distinct ports, nobody else on them, certificates in place and no circle, repeated applies bring it up |
| EndToEnd.RenderedAccepted | apps/agent/src/translate.rs:117-121 | so the agent's check for a TLS leg without material never rejects a rendered payload |
| ConfigRender.BuildConfig | apps/server/src/db/repo.ts:243-398 | the nested loops compute the render function |
| ConfigSync.NotModifiedMeansCurrent | apps/server/src/routes/agent.ts:22-49 | in every careful run "not modified" is answered only when the agent runs exactly the snapshot with nothing newer half applied |
| ConfigSync.RunCoherent | apps/agent/src/control.rs:56-107 | in every careful run a version determines its content and the adopted version never exceeds the issued ones |
| ConfigSync.RecomputeMeans | apps/server/src/db/repo.ts:412-426 | an unchanged content leaves the row and its version; another gets the next version above the old one and not below the second |
| ConfigSync.FetchMeans | apps/server/src/routes/agent.ts:22-49 | an agent fetches exactly what is newer than its version |
| ConfigSync.AdoptedSurvives | apps/agent/src/control.rs:79-101 | only a full application changes version and cache; saved, it survives a restart at its version |
| ConfigSync.RecreatedSeen | apps/server/src/db/repo.ts:141-159 | a row created anew is seen by every agent if and only if its second exceeds every version issued |
| ConfigSync.RecreatedHidden | apps/server/src/db/repo.ts:141-159 | a run in which the row is lost and rendered anew within the issued seconds, and the agent is told its outdated config is current |
| ConfigSync.BootstrapExact | apps/agent/src/lib.rs:46-69 | after a restart from the current snapshot's cache the answer is always "not modified", and the agent runs it if and only if the replay was full |
| ConfigApply.NotModifiedMeansServing | apps/agent/src/control.rs:56-107 | in every careful run, with applications judged by the supervisor and with dying loops, directed restarts, foreign binds and connections in between, "not modified" is answered only when nothing but the snapshot's services runs and each serves exactly its entry, unless its loop died or it was restarted since that snapshot was applied in full |
| ConfigApply.FullMeansServing | apps/agent/src/control.rs:79-101 | an application has no failures, and so is adopted, if and only if afterwards every desired service serves and nothing else runs |
| ConfigHeal.PollHeals | apps/agent/src/runtime/mod.rs:111-151 | a poll brings back a service whose loop died if and only if the panel holds a version newer than the adopted one, its payload is accepted and wants the service, and at the service's turn its port is free once an old listener on it is closed and its certificates are in place; it then serves the desired entry |
| ConfigHeal.PollsDoNotHeal | apps/agent/src/control.rs:56-66 | in particular, polls of an agent that adopted the snapshot change neither its world nor either side's state |
| ConfigHeal.PollHealsAlone | apps/agent/src/runtime/mod.rs:111-151 | where nobody else runs or is wanted on the port, a newer accepted payload heals if and only if no other process took the port |
| ConfigHeal.DeadUnnoticed | apps/agent/src/control.rs:56-66 | a run in which a service is applied and adopted, its loop dies, and every further poll is answered "not modified" and leaves it down |
| ConfigCerts.RotationInUse | apps/agent/src/control.rs:66-101 | after a full application every TLS listener embeds the payload's material if and only if the write found the files changed in a running process, or no listener it keeps had embedded anything else |
| ConfigCerts.RotationExact | apps/agent/src/control.rs:66-101 | the same when the write may have failed: each listener was kept with the material or built from it |
| ConfigCerts.NotModifiedMeansInUse | apps/agent/src/control.rs:56-107 | in every careful run in which each payload that changes the files can write them and is applied in full, "not modified" is answered only when every TLS listener embeds the snapshot's material |
| ConfigCerts.RotationLost | apps/agent/src/control.rs:66-101 | a run in which a rejected payload's files are written and the next version, adopted, keeps a listener with the old ones |
| ConfigSync.BackoffDoubles | apps/agent/src/control.rs:159-171 | the wait after failures doubles from the poll interval up to five minutes |
| ConfigSync.PanelRow.RecomputeConfig | apps/server/src/db/repo.ts:412-426 | the row and the two result flags |
| ConfigSync.PanelRow.GetConfig | apps/server/src/routes/agent.ts:22-49 | on-demand render and the three answers |
| ConfigSync.Control.PollOnce | apps/agent/src/control.rs:56-171 | adoption, cache and backoff after one poll |
| QuotaSweep.SweepSettles | apps/server/src/services/quota.ts:219-252 | with decisions off the ledger: if snapshots name rules only on nodes linked to their tunnel and no node is named like a service, then after one sweep and recompute, whatever is charged meanwhile and whatever is recomputed later, no snapshot names the swept users' rules and no report makes the sweep return them |
| QuotaSweep.SweptWhenCharged | apps/server/src/services/quota.ts:219-252 | an owner with bytes left, whose rules are then charged by further rows, is returned by the sweep after a report of one of the rules, while deployed, if and only if those rows charge at least what was left |
| QuotaSweep.DecisionsStay | apps/server/src/services/quota.ts:132-176 | the set of stopped users only grows with time and with the ledger |
| QuotaSweep.SweptAgain | apps/server/src/services/quota.ts:219-252 | without that, exactly when a reporting stopped user is swept again: a snapshot not recomputed, or a node's own name, still mentions a rule |
| QuotaSweep.FreshMentions | apps/server/src/services/quota.ts:184-201 | a fresh snapshot names no rule of a stopped user but by the node's own name |
| QuotaSweep.QuotaSweepStoppedUsers | apps/server/src/services/quota.ts:219-252 | owners in chunks, their decisions off the accounts and the ledger, and the snapshot scan return exactly the owners who are stopped and deployed |
| QuotaSweep.SnapshotTable.RecomputeUsers | apps/server/src/services/recompute.ts:25-52 | recomputing in any order renders exactly the users' nodes anew, except those whose recompute failed |
| Quota.QuotaForUser | apps/server/src/services/quota.ts:153-176 | without a subscription in force the owner is stopped; a package of nothing is unlimited; otherwise the owner is stopped if and only if the bytes the ledger charged to all of their rules since the hour of activation reach the package, and until then what is left is positive and adds up with them to it |
| Quota.ChargedOut | apps/server/src/services/quota.ts:153-176 | a metered owner is stopped by further ledger rows if and only if they charge at least what was left |
| Quota.UsageAfter | apps/server/src/services/quota.ts:89-105 | rows written to the ledger add to a usage exactly what they charge to the rules from the hour on |
| Quota.HourCounts | apps/server/src/services/traffic.ts:53-56 | a ledger hour counts if and only if it is the hour of activation or a later one |
| Quota.StopIsFinal | apps/server/src/services/quota.ts:89-176 | later, and with any further rows written to the ledger, a stopped user is still stopped |
| Quota.UsageGrows | apps/server/src/services/quota.ts:89-105 | no write to the ledger lowers anybody's usage |
| Quota.BreakdownAddsUp | apps/server/src/services/quota.ts:89-127 | the per-rule breakdown adds up to the one aggregate over the ledger that the decision is made on |
| Quota.RuleUsageByRule | apps/server/src/services/quota.ts:111-127 | querying 90 rules at a time gives the same breakdown |
| PushMode.WindowExact | apps/agent/src/cp/ws.rs:102-157 | the window is exactly the failures since the last handshake within 60 seconds of the newest; Poll if and only if three; announcements alternate and end in the flag |
| PushMode.StaysDemoted | apps/agent/src/cp/ws.rs:129-157 | a demoted channel stays so through one more failure if and only if the failure before the last is within 60 seconds of it |
| PushMode.StaysUntilHandshake | apps/agent/src/cp/ws.rs:102-157 | with gaps of at most 30 seconds no number of failed attempts leads back to Ws |
| PushMode.ProbeAgesOut | apps/agent/src/cp/ws.rs:143-150 | with a probe interval of 60 seconds the first failed probe does |
| PushMode.ProbeAgedOut | apps/agent/src/cp/ws.rs:143-150 | a run in which it does |
| PushMode.BackoffGrows | apps/agent/src/cp/ws.rs:143-149 | the backoff doubles with every turn that sleeps it, up to its bound, and nothing resets it |
| PushMode.HandshakePromotes | apps/agent/src/cp/ws.rs:198-212 | after any session the mode is Ws, and a demoted channel announces it at the handshake |
| PushMode.PushChannel.RunOnce | apps/agent/src/cp/ws.rs:102-151 | one turn of the loop in place, and how long it sleeps |
| PushMode.PushChannel.UpdateMode | apps/agent/src/cp/ws.rs:215-232 | flag and announcement |
| Health.BeatMirrors | apps/server/src/services/health.ts:37-94 | for any snapshot size the node's rows become the reported services plus the liveness row, each with its last sample, and other nodes' rows stay |
| Health.LivenessKept | apps/server/src/services/health.ts:15-54 | the liveness row stays Ready if and only if no sample claims its name with another state last |
| Health.StatusFollows | apps/server/src/services/health.ts:105-144 | on a served tunnel and not paused, a rule is broken or active after a report as the last sample named after it says failed or apply_failed, or ready or running; in every other case it stays |
| Health.NumberMeans | apps/server/src/services/health.ts:106-108 | a service is taken for a rule's if and only if its name is the rule's, possibly with leading zeros |
| HealthReport.Heartbeat | apps/agent/src/runtime/mod.rs:227-251 | from listener to panel: after a heartbeat a rule on a served tunnel, not paused, is active if its service has a live listener, broken if the listener died or the service is down, and as before if it is not desired |
| Health.StatusGuard | apps/server/src/services/health.ts:105-144 | a rule takes the status of the last sample giving evidence about it if and only if the node serves it and it is not paused |
| Health.HealthTables.IngestHealthSnapshot | apps/server/src/services/health.ts:37-144 | the chunked upserts and deletes mirror the report, and every rule's status follows it |
| Names.LexMeans | apps/agent/src/runtime/mod.rs:83-83 | the order of names: one goes on from the other, or is lower where the two part |
| Names.RuleIdRoundTrip | apps/server/src/services/traffic.ts:101-101 | the ledger's parser recovers the id from every rendered service name |

## Left out

- Transport: HTTP, WebSocket framing, SQL text, file writes, environment parsing and the web panel; tables are maps, replies and kernel answers are parameters.
- Cryptography: signatures, hashes, Base64 and PEM; certificates in `TlsMaterial` are records of what was put into them, the authority identifier being the key read back from the stored certificate, which `Certificate.SpkiRoundTrip` justifies.
- Listeners on host addresses other than the rendered 0.0.0.0, and port 0: the payload schema admits ports from 1 only.
- Address parsing: the target text of a rule, the shape of a port range and the agent's translation of a payload enter as parsed values; a rejected payload is an outcome of `ConfigSync.Apply`.
- The order in which removed services are stopped: it is a hash map's, and no result depends on it.
- Per-client counter rows, metrics rollups and the display totals of rules and nodes: observation only, overwritten or added without feedback.
- SupervisorService.SupervisorService.HealthSnapshot: speaks of the set of names; a failed restart can list one failure twice, as in the original.
- BillingRun.ExactWithinLife: like the two theorems of `BillingLives`, assumes uploads of a node arrive in order and that the panel names every reported service that parses to the rule; a delayed duplicate delivery is not modelled.
- BillingRun.NeverOverbills: speaks of real bytes; `BillingRun.ChargedWithin` bounds how far charged bytes are from them, at one rate throughout.
- SampleBuffer.Buffer.Push: requires a positive bound, since with bound 0 the original removes from an empty vector.
- RateLimit.RateLimiter.Ready: requires a positive rate, since the original divides by it.
- RateRun.WindowFlowBound: allows a millisecond more than the window, since a bucket may have been refilled just before it opened without its clock having moved since.
- Der.ReadTlv: gives no node when the buffer ends inside a header, where the original goes on with a not-a-number length; what the key reader then returns is modelled. Lengths are unbounded where the original's are doubles.
- Certificate.SpkiRoundTrip: requires the certificate content to be below two gigabytes, which `CertificateSize.SmallFits` derives from the size of what goes in.
- TlsMaterial.OrderMatters: requires domain and names of at most sixteen million octets together.
- TlsMaterial.RunGood: operations run one at a time and complete; concurrent or crashed generation is not modelled, and each operation reads the clock once.
- ConfigSync.NotModifiedMeansCurrent: runs are careful, that is recreated rows get a fresh second and start-ups replay their cache in full; the two lemmas beside it say exactly what happens otherwise. Two recomputes that overlap are not part of this machine.
- ConfigApply.NotModifiedMeansServing: says nothing of a service whose loop died or that was restarted since the last full application; `ConfigHeal.PollHeals` and `SupervisorRun.RestartServesLast` do.
- ConfigCerts.RotationInUse: material is one value, compared whole; the domain a connecting leg dials is part of it, and a certificate file that can be read can be loaded.
- Ingest.TrafficDb.IngestTraffic: the display totals written after the counters are left out, so a crash among them, which also returns no billed rules, is not modelled.
- RenderRoles.EntryDials: requires the exit links' node records to exist, like `RenderAgreement.TwoHop`.
- IngestExact.IngestOne: speaks of a service the batch names once, as the agent's buffer sends it; `Ledger.FoldPerRule` and `Ledger.Telescope` cover repeated ones.
- QuotaSweep.SweepSettles: a node whose link was deleted keeps its stale snapshot, as in the original; `QuotaSweep.SweptAgain` covers it.
- RenderAgreement.TwoHop: requires the exit links' node records to exist; a missing one makes the original dial the entry's own address, which the renderer function keeps.
- Health.NumberMeans: rule numbers are exact, where the original reads them as doubles.
- Health.StatusGuard: the served tunnels of a node are a parameter, and so is the clock.
- Backoff jitter, heartbeat ticks and the five-minute safety net of the control loop; the read watchdog of a push session.
- Administration, tokens, audit, dashboard and password handling.
