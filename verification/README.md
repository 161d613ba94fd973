# Portcullis core, verified

Portcullis is a multi-tenant gateway for MCP servers: it authenticates callers, checks their
permissions and rate limits, pins their sessions, meters and audits what they do, and forwards the
rest to upstream servers. This project models the parts of its backend where a mistake is hard to
see by reading, and proves what they promise for every input, every run and every interleaving.

Check everything with `dafny verify dfyconfig.toml` (Dafny 4.11).

| file | what it models |
|---|---|
| `MerkleTree.dfy` | Merkle roots and inclusion proofs over audit entries |
| `AuditChain.dfy` | the hash-chained audit log, its verifier, and concurrent appends |
| `TokenBucket.dfy`, `SlidingWindow.dfy` | the two rate-limiting scripts |
| `RatePolicy.dfy`, `RateLimiter.dfy`, `ExpiringLimiter.dfy` | policy resolution, Redis keys, budgets shared over tools, and the same on a store that expires keys |
| `UsageMetering.dfy` | the bounded usage queue, its flush loop, the daily counters |
| `Permissions.dfy`, `RbacRepository.dfy`, `OrgBootstrap.dfy` | the permission decision, roles and bindings, default roles |
| `MemberAdmin.dfy` | the organization member endpoints |
| `Sessions.dfy`, `SessionRaces.dfy` | session ownership, atomic and command by command, and the router's own lookup and record |
| `ToolFilter.dfy`, `Gateway.dfy` | list filtering and the proxy pipeline |
| `LicenseKeys.dfy` | unpadded URL-safe base64 (sections 3.2 and 5 of RFC 4648) and signed license keys |
| `Digests.dfy`, `Ranking.dfy`, `Patterns.dfy`, `Subjects.dfy`, `Wrappers.dfy` | shared vocabulary: collisions, stable sorting, globs, principals, options |

Modelling decisions:

- SHA-256, HMAC, JSON and the glob matcher are parameters with stated laws. A claim "or a collision" always
  names a collision among the texts that were really hashed, never just the existence of one.
- Code that updates objects step by step is modelled as classes and methods; comprehensions and
  branch-only code as functions. Redis scripts, SQL statements and lock acquisitions are atomic steps.
- Times are reals in the rate limiter and the session registry (no float rounding) and integers in the audit log.
- Clocks, fresh ids, database contents, upstream answers and failures are parameters. In the pipeline every
  place where an unexpected exception can end a request is a stage that may fail.

Where the code does not give what its comments or documentation suggest, the model follows the code and
the exact condition is proved:

- `create` takes the timestamp of an audit row before the tenant lock. A chain verifies exactly when its newest
  10000 rows committed in timestamp order and the first row of all is one of them (`HonestVerdict`, `ShortVerdict`,
  `LateCommitIsRejected`); so a longer one in order is rejected (`InOrderVerdict`), and a late row can go unread
  (`OldRowGoesUnread`).
- `verify_chain` skips rows without an entry hash (`NullHashIsUnchecked`, `TailAcceptedIff`).
- Merkle roots do not see a repeated last entry; what they do determine is exact (`RootBindsPayloads`, `RepeatedLastPayload`).
- The member guards apply only to callers with a member row (`OwnersChangeIff`, `RowlessCallerCreatesOwner`).
- A dry run is not forwarded, except that `session/terminate` is handled before the flag is read (`DryRunForwardsIff`, `DryRunTerminationIsForwarded`).
- List filtering does not reach answers that are streamed, are no JSON, or whose `result` is not an object (`UnfilteredIff`, `StreamedListIsUnfiltered`).
- The 202 answer to a notification passes on the upstream's session id without pinning it (`NotificationAnswer`, `NotificationEchoesForeignId`).
- The flush on a sentinel after the sleep runs inside the cancel handler's `try`: a cancel that hits it flushes the batch again, so a delta can
  be persisted twice (`CancelledFlushCountsTwice`). Usage is conserved exactly when no cancel of that
  flush, after its commit, is followed by another commit (`AllConservedIff`).
- Two writers of one tenant can fork the audit chain; exactly when is proved (`ForksIff`, `LateCommitsFork`).
- The router pins a session by a lookup and a later write, so requests that interleave can pass a live id from one
  owner to another; exactly when is proved (`MovesIff`, `MoveNeedsRace`, `RaceMovesOwner`).
- A repeated sorted-set member makes the sliding window admit more than its limit (`RepeatedMemberOverAdmits`).

## Model

| member | source | states |
|---|---|---|
| MerkleTrees.LeafAt | api/app/audit/tamper.py:93-139 | a walk from the root always ends in a leaf of the list, whatever turns it takes |
| MerkleTrees.TurnsReachIndex | api/app/audit/tamper.py:93-127 | the left/right turns of an index have the tree's depth and lead back to that index |
| MerkleTrees.PaddedDeterminesRoot | api/app/audit/tamper.py:53-91 | lists of any lengths whose padded trees hold the same leaves have the same root |
| MerkleTrees.RootDeterminesPadded | api/app/audit/tamper.py:53-91 | trees of one depth with one root hold the same padded leaves, or two hashed texts collide |
| MerkleTrees.DeeperTreeHidesNode | api/app/audit/tamper.py:53-91 | if trees of different depths share a root, the flatter one has a leaf that is an inner digest of the deeper one, or there is a collision |
| MerkleTrees.DepthsAgree | api/app/audit/tamper.py:53-91 | lists of audit payloads whose trees differ in depth cannot share a root without a collision |
| MerkleTrees.RootBindsPayloads | api/app/audit/tamper.py:53-91 | for payload lists of any lengths, equal roots are equivalent to equal contents up to repeated odd ends, or two hashed texts collide |
| MerkleTrees.SameLengthBinding | api/app/audit/tamper.py:53-91 | payload lists of one length with one root are equal, or two hashed texts collide |
| MerkleTrees.RepeatedLastPayload | api/app/audit/tamper.py:68-91 | for every odd length of at least three, repeating the last payload leaves the root unchanged, so equal length is needed |
| MerkleTrees.PathReplaysToRoot | api/app/audit/tamper.py:93-139 | completeness: the extracted path of every index replays to the root |
| MerkleTrees.PathTurns | api/app/audit/tamper.py:93-127 | the directions of an extracted path are the turns of its index |
| MerkleTrees.FullProofNamesLeaf | api/app/audit/tamper.py:129-139 | soundness: a digest accepted by a proof of full length is the leaf its own directions lead to, whatever siblings it carries, or there is a collision |
| MerkleTrees.MarkedProofNamesLeaf | api/app/audit/tamper.py:129-139 | a digest accepted with the directions of an index is the leaf at that index, or there is a collision |
| MerkleTrees.ShortProofNamesInnerNode | api/app/audit/tamper.py:129-139 | a proof shorter than the tree is deep can only name an inner node |
| MerkleTrees.LongProofPassesLeaf | api/app/audit/tamper.py:129-139 | a longer proof replays through a leaf, so a leaf would be the digest of a proof text |
| MerkleTrees.AcceptedPayloadIsMember | api/app/audit/tamper.py:58-139 | an accepted proof of an audit payload, of any length and with any siblings and directions, proves membership at the index it leads to, or there is a collision |
| MerkleTrees.BuildLeaves | api/app/audit/tamper.py:58-66 | the leaves carry the digests of the payloads, their data and their indices |
| MerkleTrees.BuildTree | api/app/audit/tamper.py:68-84 | the loop's root is the fold of the leaf digests, every inner node carries the digest of its children, and an empty list gives the reserved digest |
| MerkleTrees.GetRootHash | api/app/audit/tamper.py:86-91 | the root that the binding theorems are about |
| MerkleTrees.ProofLevel | api/app/audit/tamper.py:103-127 | one level of extraction yields the next level and the sibling of the target, if the target is on it |
| MerkleTrees.GetProof | api/app/audit/tamper.py:93-127 | the loop extracts exactly the recursive path; an index outside the list gives the empty proof |
| MerkleTrees.VerifyProof | api/app/audit/tamper.py:129-139 | accepts exactly when the replay reaches the root |
| MerkleTrees.ProveAndVerify | api/app/audit/tamper.py:93-139 | extracting and then verifying succeeds for every list and index |
| AuditChains.VerifyRows | api/app/repositories/audit.py:265-294 | intact exactly when every row links to its predecessor and matches its digest; otherwise it names the first bad row and how it is bad |
| AuditChains.PrefixAccepted | api/app/repositories/audit.py:258-294 | accepted chains are closed under taking a prefix |
| AuditChains.TailAcceptedIff | api/app/repositories/audit.py:258-294 | dropping the oldest rows is accepted exactly when the last dropped row has no entry hash, so never in a fully hashed chain |
| AuditChains.NullHashIsUnchecked | api/app/repositories/audit.py:286-294 | the newest row of an accepted chain can carry any fields once its entry hash is null |
| AuditChains.NewestHashBindsChain | api/app/repositories/audit.py:16-46 | tamper evidence: two accepted, fully hashed chains with the same newest entry hash have the same length and, at every position, the same event type, outcome and time, and the same tenant, subject, server, tool, detail and predecessor hash up to missing and empty, or two entries collide |
| AuditChains.EntryIsColumns | api/app/repositories/audit.py:16-46 | the hashed object determines exactly those columns of the row, and they determine it |
| AuditChains.EditVerdict | api/app/repositories/audit.py:258-294 | editing a stored row and keeping its entry hash is accepted exactly when the link and every one of those columns stay, or two entries collide |
| AuditChains.RehashBreaksLink | api/app/repositories/audit.py:258-294 | changing the entry hash of any row but the newest is rejected |
| AuditChains.AuditRepository.Create | api/app/repositories/audit.py:52-131 | appends one row with the given columns that links to the tenant's newest row by timestamp and matches its own digest; an honest table stays honest |
| AuditChains.AuditRepository.VerifyChain | api/app/repositories/audit.py:258-294 | intact exactly when the newest 10000 rows of the tenant, oldest first, form an accepted chain |
| AuditChains.HonestInOrderAccepted | api/app/repositories/audit.py:84-131 | rows that each linked to the newest row before them form an accepted chain if they committed in timestamp order |
| AuditChains.InOrderVerdict | api/app/repositories/audit.py:258-294 | committed in timestamp order, an honest chain verifies exactly when it has at most 10000 rows |
| AuditChains.HonestVerdict | api/app/repositories/audit.py:76-294 | for every length, with distinct timestamps: an honest chain verifies exactly when, of the newest 10000 rows, each committed after all that are older, and the first row of all is one of them, or two entries collide |
| AuditChains.ShortVerdict | api/app/repositories/audit.py:76-294 | so with at most 10000 rows it verifies exactly when all of them committed in timestamp order, or two entries collide |
| AuditChains.NewestRowsAreNewest | api/app/repositories/audit.py:258-268 | the rows that verification reads are ordered by time, hold every row from the oldest of them on, and are all rows when there are at most 10000 |
| AuditChains.InOrderVerifies | api/app/repositories/audit.py:76-294 | no collision is needed one way: rows read in commit order, with the first row of all, are an accepted chain |
| AuditChains.LateRowCollides | api/app/repositories/audit.py:76-97 | an accepted chain with a row that links to a newer one contains two different entries with one digest |
| AuditChains.OldRowGoesUnread | api/app/repositories/audit.py:258-294 | 10000 rows in order and one that is older than all of them: out of order, and it verifies |
| AuditChains.LateCommitIsRejected | api/app/repositories/audit.py:76-131 | for any fields, times and two writers, the steps in which the writer stamped first commits last reach a table whose chain is rejected |
| AuditChains.NoForks | api/app/repositories/audit.py:84-97 | in timestamp order no two rows of a tenant have the same predecessor, or two entries collide |
| AuditChains.ForksIff | api/app/repositories/audit.py:65-97 | with distinct timestamps, two rows of a tenant have the same predecessor if and only if some row but the last committed late, or two entries collide |
| AuditChains.LateCommitsFork | api/app/repositories/audit.py:76-131 | for any fields and times, the steps of three writers of whom the one stamped last commits first reach a table in which two rows have the same predecessor |
| AuditChains.NextKeepsInvariant | api/app/repositories/audit.py:76-131 | every step of a writer (stamp, lock, read, commit, abort) keeps: a lock holder that has read the newest row still sees the newest row |
| AuditChains.RunsAreHonest | api/app/repositories/audit.py:76-131 | every interleaving of concurrent appends leaves a table that appends one after the other could have written |
| AuditChains.RunsReleaseLocks | api/app/repositories/audit.py:76-131 | after every interleaving a tenant is locked only by an append of that tenant that has neither committed nor aborted |
| AuditChains.HonestRunsVerify | api/app/repositories/audit.py:76-131 | after every interleaving, each tenant with at most 10000 rows committed in timestamp order has a chain that verifies |
| TokenBuckets.PotentialFalls | api/app/limits/redis_bucket.py:21-48 | on any clock, tokens less what the clock has added never rise, and fall by the cost on an admission |
| TokenBuckets.PotentialAfterRun | api/app/limits/redis_bucket.py:21-48 | after a run from any state the potential is at most the capacity less the admissions |
| TokenBuckets.NeverOverAdmits | api/app/limits/redis_bucket.py:21-48 | from any state and on any clock, even backwards, admissions up to an admitted call at t number at most capacity + rate * (t - first time) |
| TokenBuckets.AdmittedIsBacked | api/app/limits/redis_bucket.py:32-40 | an admission never overdraws the bucket and stamps it with the call's time |
| TokenBuckets.RemainingIsExact | api/app/limits/redis_bucket.py:142-173 | after an admission that reports r remaining, exactly min(k, r) of k more calls at that instant are admitted, for every k |
| TokenBuckets.RetryAfterIsEnough | api/app/limits/redis_bucket.py:142-173 | a denied caller who waits `retry_after_seconds` without other traffic is admitted |
| TokenBuckets.ResetIsExact | api/app/limits/redis_bucket.py:46-47 | without other traffic the bucket is full from the reported reset on, and not before |
| TokenBuckets.ExpiryKeepsTokens | api/app/limits/redis_bucket.py:28-44 | a key that vanished after its time to live shows a call the same tokens as one that never expires |
| TokenBuckets.ExpiryIsInvisible | api/app/limits/redis_bucket.py:28-44 | on a clock that does not go back, an expiring key answers every run as an eternal one |
| SlidingWindows.MinScore | api/app/limits/redis_bucket.py:70-76 | the score of an entry of the set, no larger than any other |
| SlidingWindows.AdmitsExactlyAsLog | api/app/limits/redis_bucket.py:52-77 | refinement: with a clock that does not go back and members that do not repeat within a window, every call of a run is admitted exactly when fewer than `limit` earlier admissions lie in (now - window, now] |
| SlidingWindows.AdmitsExactlyByMembers | api/app/limits/redis_bucket.py:52-77 | without any hypothesis on the members: a call is admitted if and only if fewer than `limit` different members were admitted in (now - window, now] |
| SlidingWindows.VerdictsAgree | api/app/limits/redis_bucket.py:52-77 | the same from any sorted set that counts as the log does |
| SlidingWindows.NoWindowOverfills | api/app/limits/redis_bucket.py:52-77 | wherever a window starts, a run admits at most `limit` calls inside it, whatever the key holds to begin with, on a clock that does not go back and with members that do not repeat within a window |
| SlidingWindows.RepeatedMemberOverAdmits | api/app/limits/redis_bucket.py:57-68 | a repeated member lets a third call through a limit of two, so distinct members are needed |
| SlidingWindows.RemainingIsExact | api/app/limits/redis_bucket.py:175-203 | after an admission that reports r remaining, exactly min(k, r) of k more calls with new members at that instant are admitted |
| SlidingWindows.RunsKeepLimit | api/app/limits/redis_bucket.py:57-68 | over every run, on any clock and with any members, a key never holds more than `limit` entries |
| SlidingWindows.RetryAfterIsEnough | api/app/limits/redis_bucket.py:175-203 | a denied caller who waits `retry_after_seconds` without other traffic is admitted |
| SlidingWindows.RetryAfterRunIsEnough | api/app/limits/redis_bucket.py:175-203 | the same after every run from a missing key, without a hypothesis on its size |
| SlidingWindows.ResetIsExact | api/app/limits/redis_bucket.py:70-76 | the oldest entry leaves the window at the reported reset, and not before |
| SlidingWindows.WithinCounts | api/app/limits/redis_bucket.py:58-60 | the count of admissions in an interval is a count of positions |
| SlidingWindows.ExpiryIsInvisible | api/app/limits/redis_bucket.py:57-68 | on a clock that does not go back, a key that vanishes one window after the last admission answers every run as an eternal one |
| RatePolicies.BestPolicyIsFirstBest | api/app/limits/policies.py:39-144 | the chosen policy applies to the request; no policy that does names more of subject, server and tool, or as much with a higher priority, or with the same and more literal characters; it is the first of its equals in the list; the default applies only when none does |
| RatePolicies.ResolveIsChoice | api/app/limits/policies.py:94-149 | the algorithm, limit, window and burst enforced are that policy's own, under the scope of what it names, or the default's |
| RatePolicies.SameCandidatesAtLevel | api/app/limits/policies.py:61-91 | the candidates at the subject and server levels do not depend on the tool |
| RatePolicies.OnePolicyPerLevel | api/app/limits/policies.py:94-144 | all tools of a subject (on one server, for the server level) that resolve at that level resolve to the same policy |
| RatePolicies.Sanitize | api/app/limits/redis_bucket.py:101-108 | an empty value becomes `unknown`; any other is cut to its length bound, with separators and line ends replaced and every other character kept |
| RatePolicies.JoinIsInjective | api/app/limits/redis_bucket.py:111-121 | keys built from separator-free segments determine the segments |
| RatePolicies.SameKeySameSegments | api/app/limits/redis_bucket.py:205-238 | two requests share a key exactly when scope, tenant and sanitised parts agree |
| RatePolicies.SubjectKeyOwners | api/app/limits/redis_bucket.py:205-238 | exactly who shares a subject-scoped key: the tenant's calls of that sanitised subject at that level, and the global management bucket only if the id reads "global" |
| RatePolicies.ServerKeyOwners | api/app/limits/redis_bucket.py:205-238 | exactly who shares a server-scoped key |
| RatePolicies.ToolKeyOwners | api/app/limits/redis_bucket.py:205-238 | exactly who shares a tool-scoped key |
| RatePolicies.KeyLayout | api/app/limits/redis_bucket.py:111-238 | the text of the key for every scope |
| RateLimiting.PlansAreValid | api/app/limits/policies.py:94-144 | under the constraints of the policy table every request gets a plan with positive limit, window and burst |
| RateLimiting.PlanIsChosen | api/app/limits/policies.py:94-149 | a request's plan is the choice among its tenant's policies for its own subject, type, server and tool |
| RateLimiting.ConfigByColumns | api/app/limits/redis_bucket.py:142-203 | the scripts get the policy's numbers: the burst, or else the request limit, as the capacity; request limit / window as the rate; the request limit and the window for the window script |
| RateLimiting.BucketStepByColumns | api/app/limits/redis_bucket.py:21-48 | a bucket call in the policy's numbers: what it finds, whether it is admitted and what it leaves |
| RateLimiting.WindowStepByColumns | api/app/limits/redis_bucket.py:52-77 | the same for a window call |
| RateLimiting.IdleBucketAdmits | api/app/limits/redis_bucket.py:21-48 | a call on a bucket that was idle for window / limit seconds is admitted |
| RateLimiting.IdleWindowAdmits | api/app/limits/redis_bucket.py:52-77 | a call on a window whose entries are all a window old is admitted |
| RateLimiting.ReportedLimit | api/app/limits/redis_bucket.py:142-203 | the reported limit is the burst, or else the request limit, for a bucket and the request limit for a window; no wait after an admission |
| RateLimiting.OldestScore | api/app/limits/redis_bucket.py:70-76 | the loop finds the least score |
| RateLimiting.ResetAfter | api/app/limits/redis_bucket.py:70-76 | the time until the oldest entry leaves the window, 0 for an empty set |
| RateLimiting.TokenBucketScript | api/app/limits/redis_bucket.py:21-48 | the script writes and answers what the bucket theorems are about |
| RateLimiting.SlidingWindowScript | api/app/limits/redis_bucket.py:52-77 | the script writes and answers what the window theorems are about |
| RateLimiting.RateLimiter.CheckTokenBucket | api/app/limits/redis_bucket.py:142-173 | one script step on the key, the limit reported is the capacity, no wait after an admission, an error on a key of the other type |
| RateLimiting.RateLimiter.CheckSlidingWindow | api/app/limits/redis_bucket.py:175-203 | the same for the window script |
| RateLimiting.RateLimiter.Check | api/app/limits/redis_bucket.py:205-238 | the key follows the scope, the script and the reported limit follow the algorithm, no wait after an admission, an error on a key of the other type, and no other key changes |
| RateLimiting.KeyIsOneBucket | api/app/limits/redis_bucket.py:205-238 | however the requests of other keys interleave, a key sees a plain bucket run |
| RateLimiting.BudgetBound | api/app/limits/redis_bucket.py:205-238 | for everything that shares a bucket key: admissions up to an admitted call at t number at most burst + request limit * (t - first call) / window, in the policy's numbers |
| RateLimiting.SubjectBudgetIsOneKey | api/app/limits/policies.py:39-149 | the requests of a subject under a subject-scoped policy are exactly those on its key, with one plan, when sanitised ids are distinct and not "global" and a subject id has one identity type (the key does not carry the type) |
| RateLimiting.SharedSubjectBudget | api/app/limits/policies.py:39-149 | a subject-scoped policy is one budget: under the hypotheses of `SubjectBudgetIsOneKey`, in any run, its admissions summed over all servers and tools up to an admitted call at t number at most the policy's burst, or else its request limit, + request limit * (t - first call) / window |
| RateLimiting.ServerBudgetIsOneKey | api/app/limits/policies.py:39-149 | the same, under the same hypotheses and distinct sanitised server names, for a subject on one server under a server-scoped policy |
| RateLimiting.SharedServerBudget | api/app/limits/policies.py:39-149 | the same bound for a server-scoped policy, per subject and server, over all its tools, under the hypotheses of `ServerBudgetIsOneKey` |
| RateLimiting.KeyIsOneWindow | api/app/limits/redis_bucket.py:205-238 | however the requests of other keys interleave, a sliding-window key sees a plain window run |
| RateLimiting.SharedSubjectWindow | api/app/limits/policies.py:39-149 | a subject-scoped sliding-window policy is one budget: from any store whose key is missing or a window, its admissions over all servers and tools in the policy's window of seconds, wherever it starts, number at most its request limit, under the hypotheses of `SubjectBudgetIsOneKey` and `NoWindowOverfills` |
| RateLimiting.SharedServerWindow | api/app/limits/policies.py:39-149 | the same for a server-scoped policy, per subject and server, over all its tools, under the hypotheses of `ServerBudgetIsOneKey` |
| ExpiringLimits.BucketTimesAgree | api/app/limits/redis_bucket.py:28-48 | on a clock that does not go back, a run on a store that expires bucket keys admits exactly what a run on one that never does admits |
| ExpiringLimits.WindowTimesAgree | api/app/limits/redis_bucket.py:57-68 | the same for window keys, whose expiry only admissions renew |
| ExpiringLimits.ExpiringSubjectBudget | api/app/limits/redis_bucket.py:21-48 | a subject-scoped token-bucket policy is one budget over all servers and tools although its key expires, from any store whose key is missing or a bucket that expires as the script sets it, on a clock that does not go back |
| ExpiringLimits.ExpiringServerBudget | api/app/limits/redis_bucket.py:21-48 | the same for a server-scoped policy over all the server's tools |
| ExpiringLimits.ExpiringSubjectWindow | api/app/limits/redis_bucket.py:52-77 | a subject-scoped sliding-window policy keeps its limit in every window over all servers and tools although its key expires, from any store whose key is missing or a window that expires as the script sets it, on a clock that does not go back and with members that do not repeat within a window |
| ExpiringLimits.ExpiringServerWindow | api/app/limits/redis_bucket.py:52-77 | the same for a server-scoped policy over all the server's tools |
| UsageMetering.AppliedSums | api/app/repositories/usage.py:21-62 | every counter of every row gains exactly what its deltas add up to, and no other row appears |
| UsageMetering.Flush | api/app/usage_queue.py:129-155 | aggregating a batch per row and upserting once per row, in any row order, equals applying the deltas one by one |
| UsageMetering.TotalsSumDeltas | api/app/repositories/usage.py:126-151 | the total over a date range grows by exactly the deltas in the range |
| UsageMetering.Totals | api/app/repositories/usage.py:126-151 | summing the matching rows in any order gives the day-by-day total of every counter |
| UsageMetering.TotalsAfterRun | api/app/repositories/usage.py:126-151 | after every run, the totals over a date range are those before plus the persisted and external deltas in the range |
| UsageMetering.RunInvariant | api/app/usage_queue.py:59-155 | in every interleaving the queue and batch keep their bounds, entries leave in order, every handled item was persisted or lost, and both the ledger and the table add up |
| UsageMetering.UsageLedger | api/app/usage_queue.py:67-155 | for every interleaving, tenant, day and counter: accepted + persisted a second time = persisted + lost + in hand + queued, and the table grew by exactly the persisted part and what others wrote |
| UsageMetering.EveryEnqueueCounts | api/app/usage_queue.py:67-91 | in every run each enqueue was accepted or counted as dropped |
| UsageMetering.EnqueueNeverWaits | api/app/usage_queue.py:67-91 | a queue with room or without a bound takes the delta at its end, a full one drops and counts it |
| UsageMetering.EnabledIff | api/app/usage_queue.py:59-127 | exactly when each step of the task is possible, and that a cancel while waiting stops it |
| UsageMetering.LostIff | api/app/usage_queue.py:93-155 | a run loses accepted deltas exactly when a flush fails, or is cancelled outside the guarded part, before anything of its batch was persisted |
| UsageMetering.SentinelStops | api/app/usage_queue.py:93-127 | after a sentinel is taken nothing more is taken before the next start |
| UsageMetering.DoubledIff | api/app/usage_queue.py:113-126 | over the actions alone: something is persisted a second time exactly when a cancel hits the flush on a sentinel, after the sleep, once it has committed, and the next step of the task is another commit |
| UsageMetering.BeforeNeedsCancel | api/app/usage_queue.py:113-126 | a batch is up for a second commit only after a cancel that hit the flush on a sentinel, after the sleep, once it had committed, and with no step of the task since |
| UsageMetering.CommitsAgainIff | api/app/usage_queue.py:113-126 | a flush started by the cancel handler commits a batch again exactly when such a cancel came before it and no step of the task in between |
| UsageMetering.UsageIsConservedIff | api/app/usage_queue.py:67-155 | plain conservation of a counter holds exactly when what was persisted a second time adds nothing to it, so in every run without such a cancel followed by a commit |
| UsageMetering.AllConservedIff | api/app/usage_queue.py:67-155 | for deltas that count something, every counter is conserved if and only if no such cancel is followed by a commit |
| UsageMetering.ConservedWithoutSuchCancel | api/app/usage_queue.py:113-126 | every counter is conserved in every run in which no cancel hits that flush after its commit |
| UsageMetering.CancelledFlushCountsTwice | api/app/usage_queue.py:113-126 | for any delta, a concrete run that ends with the delta accepted once and in the table twice |
| UsageMetering.SentinelFlushesEverythingBefore | api/app/usage_queue.py:59-127 | whenever the task has stopped, all that was taken is handled, in order, and was persisted or lost, and the queue holds exactly the rest |
| UsageMetering.FirstSentinel | api/app/usage_queue.py:93-127 | the position of the first sentinel, with only deltas before it |
| UsageMetering.UsageQueue.Enqueue | api/app/usage_queue.py:67-91 | never blocks: accepted at the end unless the queue is full, else dropped and counted |
| UsageMetering.UsageQueue.Fill | api/app/usage_queue.py:93-127 | takes entries in order until the batch is full, the queue is empty, or a sentinel is taken, and never past the batch bound |
| UsageMetering.UsageQueue.Gather | api/app/usage_queue.py:93-127 | a batch is the deltas of a prefix of the queue, ended at most by its first sentinel |
| UsageMetering.UsageQueue.FlushLoop | api/app/usage_queue.py:93-127 | everything before the first sentinel is flushed, in order and in batches within the bound, nothing after it is touched, and the table holds exactly the flushes that committed |
| UsageMetering.UsageQueue.FlushOnce | api/app/usage_queue.py:129-155 | a flush that commits applies its batch, one that fails leaves the table alone |
| Permissions.EvaluateIsPermitted | api/app/auth/rbac.py:33-96 | the sort-based evaluation allows exactly when the patterns of some rule match and no rule denies whose patterns match and that no matching rule outranks, by more literal characters in the two patterns together or as many and a higher priority |
| Permissions.RankIsOutranking | api/app/auth/rbac.py:71-77 | the sort key orders two rules exactly by literal characters and then priority |
| Patterns.SpecificityCountsLiterals | api/app/auth/rbac.py:25-31 | for every pattern, the specificity is its length less its wildcard characters |
| Patterns.StarSplits | api/app/auth/rbac.py:59-64 | a star matches exactly the runs of characters that leave the rest a match |
| Patterns.CharacterMatches | api/app/auth/rbac.py:59-64 | a question mark matches one character, any other character itself |
| Permissions.TopSetIsDeciding | api/app/auth/rbac.py:71-80 | the top-ranked set is exactly the matching rules of maximal rank, in input order |
| Permissions.ReportedRuleIsFirst | api/app/auth/rbac.py:68-96 | the reported rule is the first deciding one in input order, the first denying one on a denial, none without a match |
| Permissions.ReasonOfVerdict | api/app/auth/rbac.py:68-96 | the reason tells default deny, denial and allowance apart by whether a rule matched |
| Permissions.OrderDoesNotMatter | api/app/auth/rbac.py:33-96 | verdict and reason are the same for every order of the rules |
| Permissions.OutrankingAllowPermits | api/app/auth/rbac.py:71-96 | a matching allowance that outranks every matching denial permits |
| Permissions.OutrankedAllowsAreDenied | api/app/auth/rbac.py:68-96 | if every matching allowance is outranked by a matching denial, access is denied, and so when nothing allows |
| RbacRepositories.PermissionsAreTenantScoped | api/app/repositories/rbac.py:139-167 | a subject gets exactly the rules of roles bound to it in its own tenant |
| RbacRepositories.FindPermissionIff | api/app/repositories/rbac.py:125-137 | a permission is found exactly by its role and both patterns |
| RbacRepositories.BootstrapIsIdempotent | api/app/auth/org_bootstrap.py:19-134 | on any tables, a second bootstrap changes nothing |
| RbacRepositories.AllGrantsExact | api/app/auth/org_bootstrap.py:38-111 | a role without rules ends with exactly its grants, whatever the other roles hold |
| RbacRepositories.BootstrapOfFreshTenant | api/app/auth/org_bootstrap.py:19-111 | a fresh tenant gets every default role, under new ids, with exactly its grants |
| OrgBootstrap.RbacRepository.GetOrCreateRole | api/app/auth/org_bootstrap.py:114-119 | an existing role row is returned unchanged, a missing one is created |
| OrgBootstrap.RbacRepository.UpsertPermission | api/app/auth/org_bootstrap.py:122-134 | a permission with the same patterns is left as it is, a missing one is created |
| OrgBootstrap.RbacRepository.GetOrCreateRoles | api/app/auth/org_bootstrap.py:31-36 | all five default roles exist afterwards, and the returned rows are theirs |
| OrgBootstrap.RbacRepository.CreateDefaultRoles | api/app/auth/org_bootstrap.py:19-111 | the straight-line code computes the bootstrap that the theorems are about |
| OrgBootstrap.RbacRepository.BindOwner | api/app/auth/org_bootstrap.py:137-153 | the owner's key is bound to the tenant's owner role, and to nothing if there is none |
| OrgBootstrap.RbacRepository.Provision | api/app/provisioning.py:191-203 | default roles, then the owner's key: afterwards the key may call every tool of every server |
| OrgBootstrap.AllButVerdict | api/app/auth/org_bootstrap.py:38-57 | one rule for everything and more specific denials allow exactly the names that no denial matches |
| OrgBootstrap.OnlyVerdict | api/app/auth/org_bootstrap.py:59-111 | allowances that no matching denial outranks allow exactly the names that one of them matches |
| OrgBootstrap.RoleVerdict | api/app/auth/org_bootstrap.py:38-111 | the grants of each default role allow exactly the tool names of that role, on every server |
| OrgBootstrap.BoundSubjectGetsRoleRules | api/app/auth/org_bootstrap.py:137-153 | a subject bound to one default role of a fresh tenant gets that role's rules and no others |
| OrgBootstrap.DefaultRolesAllowExactly | api/app/auth/org_bootstrap.py:19-153 | end to end, from bootstrap through binding and lookup to the decision: each default role allows exactly its tool names |
| MemberAdmin.GuardsFollowLevels | api/app/auth/admin_rbac.py:263-304 | the branch-only guards are the level hierarchy: owners and admins act on strictly lower levels and never on themselves |
| MemberAdmin.GuardedStep | api/app/api/auth.py:695-829 | whatever a caller with a row touches is in its tenant, is not its own row, and sits strictly below it before and after; failed requests touch nothing |
| MemberAdmin.AdminsOnlyByOwners | api/app/auth/admin_rbac.py:263-304 | org admins are added, changed or removed only by owners |
| MemberAdmin.OwnersChangeIff | api/app/api/auth.py:695-829 | the owners change exactly when a caller without a member row creates an owner under a subject that is not yet a member, or makes, unmakes or deletes an owner of its own tenant |
| MemberAdmin.OwnersAreFixed | api/app/api/auth.py:695-829 | every run by callers with a member row keeps the set of owners |
| MemberAdmin.TenantsAreIsolated | api/app/api/auth.py:695-829 | every run by callers of other tenants leaves a tenant's members alone |
| MemberAdmin.RowlessCallerCreatesOwner | api/app/api/auth.py:714-721 | a caller without a member row can create an owner |
| MemberAdmin.MemberApi.FindBySubject | api/app/repositories/org_members.py:49-57 | finds a member of the tenant with that subject, and none only if there is none |
| MemberAdmin.MemberApi.CreateMember | api/app/api/auth.py:695-721 | the request as the run theorems see it, with its conflict and forbidden answers |
| MemberAdmin.MemberApi.UpdateMember | api/app/api/auth.py:753-793 | the same for an update, with the fields that were sent |
| MemberAdmin.UpdateChangesSent | api/app/api/auth.py:753-793 | a successful update changes the fields that were sent, clears a null team, and leaves everything else alone |
| MemberAdmin.MemberApi.DeleteMember | api/app/api/auth.py:796-829 | the same for a deletion |
| Sessions.SessionStore.Record | api/app/gateway/session.py:49-74 | only ids of the right shape are stored, for a full time to live; an outage raises and changes nothing |
| Sessions.SessionStore.Lookup | api/app/gateway/session.py:117-142 | the live owner or nothing, nothing in an outage; a hit renews the time to live; no ownership moves |
| Sessions.SessionStore.Delete | api/app/gateway/session.py:144-149 | removes that id and no other; an outage changes nothing |
| Sessions.SessionStore.ClaimOrValidate | api/app/gateway/session.py:76-115 | true exactly for a well-formed id that nobody else holds, and then the caller holds it for a full time to live; otherwise no ownership moves |
| Sessions.ValidIdIff | api/app/gateway/session.py:25-35 | the well-formed ids, by length and character codes |
| Sessions.LivesUntilExpiry | api/app/gateway/session.py:49-74 | a record is seen for exactly its time to live |
| Sessions.OwnershipIsStable | api/app/gateway/router.py:506-785 | over every run in which each request acts only for its caller, a live id changes owner only after it expired or its owner of the moment removed it |
| Sessions.WinnersHaveWitnesses | api/app/gateway/session.py:97-115 | every call that returns true has a Redis command at which its owner held the id |
| Sessions.HeldUntilRemoved | api/app/gateway/session.py:97-142 | whatever calls interleave, a held id keeps its owner until it is deleted or expires |
| Sessions.TwoOwnersNeedRemoval | api/app/gateway/session.py:76-142 | under every interleaving of Redis commands, arrivals and failures, two owners both get true for one id only if it was deleted or expired between the commands at which they held it |
| Sessions.RemovalLetsAnotherIn | api/app/gateway/session.py:97-115 | for any id and owners, one removal in between is enough for both to get true |
| Sessions.ClaimAlone | api/app/gateway/session.py:76-142 | a call on its own takes a free id, is confirmed on its own, is refused a foreign or malformed one, and overwrites nothing |
| Sessions.FailedClaim | api/app/gateway/session.py:97-106 | a claim whose command fails answers false, and holds a free id all the same if only the reply was lost |
| SessionRaces.MovesIff | api/app/gateway/router.py:766-784 | under every interleaving of the router's GET, EXPIRE, DEL and SET, with failures and lost replies, a live id passes from one owner to another without a removal exactly when a request carries out its SET on an id that somebody else holds |
| SessionRaces.MoveNeedsRace | api/app/gateway/router.py:766-784 | such a request made its lookup before, and either the GET got no reply, or another owner's request stored the id between the two |
| SessionRaces.ForeignNeedsStore | api/app/gateway/router.py:766-784 | between a moment when nobody else holds an id and one when somebody else does, a SET of another owner was carried out |
| SessionRaces.RaceMovesOwner | api/app/gateway/router.py:766-784 | for any id and two owners, a run in which both look up an unused id and both store it, and the second takes it over |
| SessionRaces.OutageMovesOwner | api/app/gateway/router.py:766-784 | for any id and two owners, a run in which a failed lookup alone lets the second take over a held id |
| SessionRaces.AloneStores | api/app/gateway/router.py:766-784 | a request on its own leaves a foreign id alone, and otherwise drops the caller's other id and stores the new one |
| SessionRaces.RunsAreWellPinned | api/app/gateway/router.py:762-784 | in every run only well-formed ids are stored, and no request drops the id that it pins |
| ToolFilter.FilterItemsKeepsVisible | api/app/auth/tool_filter.py:15-38 | whatever the items are, the survivors are, in order, exactly the objects whose string name the evaluator allows |
| ToolFilter.NamedItemsNeverRaise | api/app/auth/tool_filter.py:31-38 | a list of objects with string names or none is filtered without an exception |
| ToolFilter.ItemVerdict | api/app/auth/tool_filter.py:15-38 | what becomes of an item of each kind: kept, dropped or an exception |
| ToolFilter.FilterRaisesIff | api/app/auth/tool_filter.py:31-38 | a list raises exactly when one of its items does |
| ToolFilter.ObjectKeysAsItems | api/app/auth/tool_filter.py:31-38 | an object in place of a list raises exactly when one of its keys contains the name key, and otherwise leaves nothing |
| ToolFilter.ListStandsInResult | api/app/auth/tool_filter.py:41-76 | the list stands under its key inside `result` |
| ToolFilter.FilterGenericList | api/app/auth/tool_filter.py:41-76 | only the list inside the result changes; it holds only what the subject may call, exactly that for a known shape, nothing when the key is missing; a result that is no object comes back as it is |
| ToolFilter.ShownIffPermitted | api/app/auth/tool_filter.py:15-76 | in a response of known shape an item is shown exactly when its name is permitted by the declarative decision |
| ToolFilter.ShownTwice | api/app/auth/tool_filter.py:41-76 | filtering a filtered response changes nothing |
| Gateway.AuthContext.RunPreAuthChecks | api/app/gateway/router.py:90-140 | passes exactly an admitted address with accepted credentials; 503, 429 and 401 each exactly for a backend failure, an address over its limit, and missing or refused credentials |
| Gateway.AuthContext.ResolveServer | api/app/gateway/router.py:142-197 | passes exactly the caller's own server of that name, still on the allow list and active; 404, 502 and 503 each exactly for an unknown, a disallowed and an inactive server |
| Gateway.AuthContext.ValidateSession | api/app/gateway/router.py:261-298 | passes exactly an absent session or a live one of this caller and server; 400, 404 and 403 each exactly for a malformed, an unknown and a foreign id; moves no ownership |
| Gateway.AuthContext.Authorize | api/app/gateway/router.py:430-501 | by the method's name and the parameters on the wire: passes exactly the methods outside tools/call, resources/read, resources/subscribe, resources/unsubscribe, prompts/get and sampling/createMessage, and what those name if the caller's rules permit it; 422 exactly when they name nothing, 403 exactly for a denial |
| Gateway.AuthContext.CheckRateLimit | api/app/gateway/router.py:199-252 | passes exactly when the limiter admits the call, and then steps it once; 429 exactly for a denial, 503 exactly for an unreachable Redis or a key of the wrong type |
| Gateway.AuthContext.TerminateSession | api/app/gateway/router.py:506-598 | only the owner's session is ended and no other, after one rate admission and before the upstream is told; otherwise no ownership moves and the answer is an error |
| Gateway.AuthContext.PersistSession | api/app/gateway/router.py:758-785 | 409 exactly for an id that somebody else holds, which stays theirs; otherwise the echoed id is pinned to the caller, its other id is gone, and no other session changes hands |
| Gateway.AuthContext.Forward | api/app/gateway/router.py:666-756 | one forward to the resolved server; the answer to each kind of failure; an answer that is too large stops before any session is pinned; a notification gets 202 and any new session id of the upstream, which is not pinned |
| Gateway.AuthContext.Respond | api/app/gateway/router.py:758-873 | the session step comes first; then the answer goes back with its status and session id, streamed exactly when either side streams, a buffered JSON list filtered |
| Gateway.AuthContext.PassGates | api/app/gateway/router.py:407-501 | the four gates in order leave true events on the trace, and a request stops at a gate only if it is not cleared |
| Gateway.AuthContext.Proxy | api/app/gateway/router.py:407-877 | every trace is a prefix of one path, truthful, and complete exactly when the request is cleared; a cleared request costs exactly one limiter step and is answered from the upstream, any other moves no ownership and is refused, or explained if it is a dry run that passed the rest |
| Gateway.McpProxy | api/app/gateway/router.py:332-877 | the same for the endpoint; requests without a readable body or an identity leave no trace and change nothing; session ownership moves only from and to the caller or nobody |
| Gateway.ServeAll | api/app/gateway/router.py:332-877 | requests of any callers, each served in its own world and possibly in a session-store outage, one after the other on one session store and limiter: each does what the endpoint promises to the state the one before left, and over the whole run session ownership is stable (for requests that interleave see `SessionRaces`) |
| Gateway.RecordedAt | api/app/gateway/router.py:332-877 | every single request of such a run did what the endpoint promises, between the registry and the limiter as the one before left them and as the next one finds them |
| Gateway.EveryForwardIsSafe | api/app/gateway/router.py:402-708 | pipeline safety, by names on the wire: a forward is the only one of its trace and comes after authentication, an active allowed server, a session of this tenant, subject and server or none, for the six guarded methods a grant of the very `name` or `uri` (or createMessage) that the caller's rules permit, and exactly one rate admission under that name or else the method's, each true of the world the request found |
| Gateway.GrantsAreForGuarded | api/app/gateway/router.py:430-501 | conversely a grant on any trace belongs to one of the six methods and is for what it names |
| Gateway.ClearedIff | api/app/gateway/router.py:402-708 | exactly when a request is cleared, by what stands on the wire, the world, and the failures on the way |
| Gateway.NamesRoundTrip | api/app/gateway/jsonrpc.py:9-31 | the fourteen method names determine their methods |
| Gateway.ForwardsIffCleared | api/app/gateway/router.py:402-708 | exactly the cleared requests are forwarded |
| Gateway.DryRunForwardsIff | api/app/gateway/router.py:506-641 | a dry run is forwarded exactly when it is a cleared termination |
| Gateway.DryRunTerminationIsForwarded | api/app/gateway/router.py:506-559 | a concrete dry run of session/terminate that is forwarded |
| Gateway.ListedIffCallable | api/app/gateway/router.py:430-842 | in a list of known shape, a named item is shown to a subject exactly when a call naming it passes the permission gate |
| Gateway.ListsAreShown | api/app/gateway/router.py:806-842 | by the method's name: exactly the buffered JSON answers to tools/list, resources/list, prompts/list and roots/list are rewritten, to what the caller's rules show of the list under that method's own keys |
| Gateway.UnfilteredIff | api/app/gateway/router.py:787-842 | an unfiltered answer to a list request reaches the caller exactly when it is streamed, is no JSON, or has no result object |
| Gateway.StreamedListIsUnfiltered | api/app/gateway/router.py:787-804 | a concrete cleared tools/list, by a subject to whom nothing is granted, whose answer escapes filtering |
| Gateway.NotificationAnswer | api/app/gateway/router.py:710-725 | every answered notification passes on the upstream's session id if it is not empty and not the caller's, and no owner changes |
| Gateway.NotificationEchoesForeignId | api/app/gateway/router.py:710-725 | for any id and any other owner of it, a concrete cleared notification whose answer carries it |
| LicenseKeys.Letter | api/app/auth/licenses.py:38-46 | the alphabet round-trips through the decoder's table and avoids padding and dots |
| LicenseKeys.PaddingIsRestored | api/app/auth/licenses.py:38-46 | stripping removes exactly the padding, and decoding restores exactly what was stripped, for every length |
| LicenseKeys.ScanUndoesPaddedEncode | api/app/auth/licenses.py:38-46 | the lenient decoder inverts the padded encoder |
| LicenseKeys.JunkIsSkipped | api/app/auth/licenses.py:43-46 | the decoder skips, wherever they stand, the characters that are in neither alphabet and no padding |
| LicenseKeys.PadsByPosition | api/app/auth/licenses.py:43-46 | what a pad does at each position of a group |
| LicenseKeys.BothAlphabets | api/app/auth/licenses.py:43-46 | the decoder takes the standard alphabet as well |
| LicenseKeys.Base64RoundTrip | api/app/auth/licenses.py:38-46 | decoding an encoding returns the bytes, for every byte string |
| LicenseKeys.LastDot | api/app/auth/licenses.py:96-104 | the last dot of a key, with none after it |
| LicenseKeys.MintedKeyIsAccepted | api/app/auth/licenses.py:49-121 | for every payload and pepper, a minted key is accepted and returns the payload |
| LicenseKeys.MintIsInjective | api/app/auth/licenses.py:49-80 | keys of different payloads differ |
| LicenseKeys.AcceptedIff | api/app/auth/licenses.py:96-121 | exactly the keys that are a text, a dot and the signature of that text are accepted, where the text is base64 of a JSON object of version 1 |
| LicenseKeys.VerdictByParts | api/app/auth/licenses.py:96-121 | the verdict on every key with a dot, by its parts: crash outside ASCII, then the signature, then the payload and its version |
| LicenseKeys.ForgedKeyExhibitsMac | api/app/auth/licenses.py:96-121 | a key that is accepted without belonging to a signed text exhibits a matching HMAC on a text that was never signed |
| LicenseKeys.OtherPepperIff | api/app/auth/licenses.py:49-121 | a key minted under one pepper is accepted under another exactly when the two HMACs of its text agree |

## Left out

- The web interface, the CLI, email, telemetry, metrics and migrations: no decisions to prove.
- Argon2, JWT and JWKS validation, JSON, SHA-256 and HMAC internals: parameters with the laws the callers rely on.
- `TamperEvidentAuditLog`, `AuditRetentionPolicy` and retention pruning: a pruned chain does not verify from its oldest row (see `TailAcceptedIff`).
- Audit rows with equal timestamps: the order of such rows is the database's choice, so the in-order theorems ask for strictly increasing timestamps.
- Invitations, key rotation, SCIM and SSO role changes, license issuing and revocation.
- Global-scope (level 3) rate budgets: several policies can share one such key, so there is no single bound to state.
- Float rounding, clock skew between hosts and the truncation of header values to whole seconds.
- The text format of the default limit (`parse_default`): the parsed numbers are parameters.
- Bracket sets of `fnmatch`: the evaluator theorems hold for any matcher; the default-role theorem uses literals, `*` and `?`, which is all its patterns use.
- The portable fallback of `increment` and the direct write of `record_usage_queued`: the latter appears as a write by others.
- MemberAdmin.MemberApi.CreateMember: how the caller's member row is found, and the administrator check in front of the endpoint, are parameters.
- Session values that are not what this code writes (malformed JSON in Redis), and an outage that starts in the middle of a request.
- Gateway.ServeAll: requests are atomic. Of requests that interleave only the session step is modelled (`SessionRaces`), not the gates before it.
- Gateway.McpProxy: PRE_AUTH plugins, request parsing, audit and usage events, response bodies other than lists, and the text of error messages are not modelled.
- The GET event-stream endpoint: the same gates without a resource.
