# Certplane: issuance, policy, limits, cache and agent installs

Certplane hands out TLS certificates. Hosts run an *agent* that keeps key and certificate files;
a central *broker* authenticates hosts, decides by a compiled policy which names they may have,
limits how often they ask, and issues through an external certificate authority or serves from a
cache. This project models that core in Dafny and proves what whole runs of it guarantee.

- `DnsName`, `Text`: canonical DNS names and the sorted lists that stand for sets of them.
- `PolicyCompile`, `PolicyValid`, `PolicyErrors`, `PolicyAuthorize`, `PolicyHash`: from the policy file to
  tables, errors, decisions and hashes.
- `RateLimit`, `Limiter`: the two-level sliding window, as a function on tables and as slices that
  are compacted and appended to in place.
- `CacheKey`, `Store`: the seven-field key and the two stores filed by it.
- `Broker`, `BrokerSteps`, `BrokerInvariant`, `BrokerRuns`, `BrokerProgress`, `BrokerSuccess`,
  `BrokerEvents`, `BrokerLives`: the issuance protocol as a state machine with any number of requests and flights, policy reloads,
  restarts, failures and passing time, and what its runs guarantee.
- `BrokerStore`, `BrokerExamples`: the protocol over its two stores, and runs that show what is not
  guaranteed.
- `AtomicFile`, `Disk`: `WriteFileAtomic` one file operation at a time, and the helpers built on it.
- `Agent`, `AgentSafety`, `AgentRenewal`, `AgentForward`: any number of agents interleaving and
  crashing at any file operation.
- `AgentTurns`, `AgentPass`: one pass of one agent as the program writes it, shown to be what a
  process of that state machine does.

Methods follow the program's loops and updates and are tied to functions, or, for the agent's pass, to
the turns of a process; the lemmas are about those functions and about the state machines. In a state
machine one step is one operation that other processes or goroutines can see the result of, and
everything outside the program's control (clients, the issuer, failing recorders, stores and files, the
clock) is an argument of the step.

## Assumptions

- Digests: no two inputs that a run hashes collide, and digests are 64 characters long. The JSON
  that is hashed determines its fields, and the printed form of a duration determines it.
- The issuer certifies the public key and the names of the request it is given, if it answers with
  success. The agent's theorems about installed files do not use this: there the broker may answer
  anything.
- A recorder that reports success has appended the event; one that reports failure may have, too.
  A failed put leaves the store old or new. When the broker crashes, the store and the log stay.
- What is written as JSON reads back as it was written.
- Clocks do not go back. Integers are unbounded, so the saturation of `time.Until` is not modelled.
- Request IDs are never repeated, and an authenticated identity is not empty.
- Two keys that a store files in one slot have the same joined string. `BrokerStore` shows it of the
  JSON file, which files by that string, and of the table, which files by the seven columns, and that
  the broker over either has exactly the runs of the protocol; for the table, if the bundles put have
  their times in whole seconds, as section 4.1.2.5 of RFC 5280 has the times of certificates.
- In `AgentRenewal`, an answer of the broker is taken as one instant and expires when its certificate
  does. `BrokerStore.ResultsAreServed` shows that what a flight returns is such an answer when the
  flight gets it, provided that the issuer's certificates live longer than the renewal time.
- Text is a sequence of code points, and strings are ordered by them. That is the order of their
  UTF-8 bytes too.
- `rename` is atomic and opening with `O_CREAT|O_EXCL` is exclusive, as IEEE Std 1003.1 has them.
  Nobody but agents writes the configured paths, and an operator removes a lock file only when no
  live process holds it. The configured key and certificate paths do not clash with others
  (`Setup.Apart`; entries may share a key, a chain or a full chain).

## What is false, and exactly when

- Equal policy hashes do not always mean equal decisions: `Compile` files a profile under its raw key
  but hashes it under its trimmed name. `PolicyHash.HashDecidesExactly` gives the condition on the two
  sets of profile keys, and `PolicyHash.PaddedKeysMislead` a pair that fails it.
- A profile limit no smaller than the identity limit can still refuse a call on its own, because the
  limiter joins identity and profile with a NUL. `RateLimit.ProfileLimitIdleExactly` says for which
  sets of identities it cannot.
- The two stores can disagree. `Store.StoresAgreeExactly` gives the condition on the keys and bundles
  put into them, `Store.StringsApartByNames` what it says of identities and profile names, and
  `Store.NulsMixKeys` an example. `Store.ServedAlikeExactly` is the condition for hits and misses alone.
- An error from `WriteFileAtomic` does not mean that the target is unchanged
  (`AtomicFile.ErrorAfterRename`). The comment in the code promises only that readers see the old or
  the complete new file, which is proved.
- If an agent's renewal time for an entry exceeds the profile's, a certificate can be installed over
  itself: `AgentForward.OverItself` is a run that does it, and `AgentForward.MovesForwardExactly` says
  that, with the answers of such a broker, this is the only case in which a replacement does not expire
  later.
- Issued events are not calls to the issuer: followers of a flight log `certificate_issued` and report a
  miss like their leader. `BrokerExamples.FollowersLogToo` is a run with one call and two events, under
  any limits; `BrokerEvents.OutcomesComeFromCollectors` says what the events do stand for, and
  `BrokerEvents.IssuedEventsHaveCalls` that none is without a call.
- The hourly limits hold from one start of the broker to the next and not over it: for every n,
  `BrokerExamples.RestartsForget` is a run with n - 1 restarts that admits n like requests at one time,
  whatever the limits. With r restarts an hour has at most r + 1 times the limit
  (`BrokerLives.LimitedAcrossRestarts`).

## Model

| member | source | states |
|---|---|---|
| DnsName.Canonicalise | internal/dnsname/dnsname.go:12-60 | the branches and loops of `Canonical` answer as the function `Canonical`, errors included |
| DnsName.CanonicalExactly | internal/dnsname/dnsname.go:12-60 | the input yields a name exactly when that is two or more plain labels, or `*.` and two or more, and the input spells it: up to ASCII case and two other letters, with white space around it and at most one dot at its end |
| DnsName.CanonicalAccepts | internal/dnsname/dnsname.go:12-60 | a name is accepted just when its folded form is such a name; that form is the result |
| DnsName.RefusedBecause | internal/dnsname/dnsname.go:17-57 | each error names a defect that the folded name has |
| Text.TrimExactly | internal/dnsname/dnsname.go:13 | `strings.TrimSpace` takes away white space around a string, all of it, and nothing else |
| DnsName.CanonicalIdempotent | internal/dnsname/dnsname.go:12-60 | a canonical name is its own canonical form |
| DnsName.CanonicalStars | internal/dnsname/dnsname.go:80-90 | `IsValidWildcard` tells canonical names with exactly one star, in front, from those with none |
| DnsName.CanonicaliseList | internal/dnsname/dnsname.go:62-78 | the loop with its seen-map and final sort computes `CanonicalList` |
| DnsName.CanonicalListIsNormalForm | internal/dnsname/dnsname.go:62-78 | success just when every name is valid; then the list is strictly sorted and its elements are exactly the canonical forms |
| DnsName.SameListSameSet | internal/dnsname/dnsname.go:62-78 | two valid lists have one normal form just when they denote one set |
| DnsName.CanonicalListIdempotent | internal/dnsname/dnsname.go:62-78 | a normal form is its own normal form |
| DnsName.FirstInvalidName | internal/dnsname/dnsname.go:65-69 | an invalid list is refused for its first invalid name |
| DnsName.SameStrings | internal/broker/policy/authorize.go:43-53 | the positional loop decides equality of sequences |
| DnsName.EqualSet | internal/dnsname/dnsname.go:92-110 | true just when both lists are valid and denote the same set |
| Text.SortedKeys | internal/broker/policy/compile.go:181-188 | collecting keys in any order and sorting gives the one strictly sorted listing of the key set |
| Text.LessExactly | internal/dnsname/dnsname.go:76 | strings are ordered by the first character that differs, a prefix coming first |
| PolicyCompile.Compile | internal/broker/policy/compile.go:14-65 | compilation, with its errors, is the function `CompilePolicy` of the configuration, whatever the map order |
| PolicyCompile.CompileOneHost | internal/broker/policy/compile.go:152-179 | the loop over profile references, with its first error |
| PolicyCompile.CompileAllProfiles | internal/broker/policy/compile.go:36-43 | the loop over the profiles, with its first error |
| PolicyCompile.CompileAllHosts | internal/broker/policy/compile.go:45-56 | the loop over the hosts that fills both tables, with duplicate identities refused |
| PolicyCompile.ComputePolicyHash | internal/broker/policy/hash.go:51-74 | the digest is of the records in sorted order, whatever the map order |
| PolicyCompile.CompileGivesTables | internal/broker/policy/compile.go:28-56 | after compilation the tables hold every raw profile and host, compiled, and each host under its own identity and nothing else |
| PolicyCompile.AllowedProfilesMeaning | internal/broker/policy/compile.go:165-176 | a host compiles just when every reference, trimmed, names a compiled profile, and its set is exactly those |
| PolicyCompile.CompiledProfileFields | internal/broker/policy/compile.go:67-117 | each field of a compiled profile equals the trimmed, canonicalised or defaulted raw one, and the hash is of these fields |
| PolicyCompile.CompiledProfileNames | internal/broker/policy/compile.go:119-150 | a compiled `multi_san` profile has no star; every name of a `wildcard` profile has exactly one, in front |
| PolicyValid.ProfileCompilesExactly | internal/broker/policy/compile.go:67-150 | a profile compiles just when, in the raw configuration, it is named, has names that are all wildcards or all host names as its type says, uses `dns-01` and has no negative renewal time |
| PolicyValid.HostCompilesExactly | internal/broker/policy/compile.go:152-179 | a host compiles just when it has a name, an identity and references that all name known profiles |
| PolicyValid.CompilesExactly | internal/broker/policy/compile.go:14-65 | a policy compiles just when its version is known, it has profiles and hosts, each valid, and no identity comes twice; its version is then 1 |
| PolicyErrors.ProfileRefusedBecause | internal/broker/policy/compile.go:67-150 | what each error of a profile says of the raw profile |
| PolicyErrors.HostRefusedBecause | internal/broker/policy/compile.go:152-179 | what each error of a host says of the raw host |
| PolicyErrors.PolicyRefusedBecause | internal/broker/policy/compile.go:14-56 | which key a compilation stops at, the first in order, profiles before hosts, and why |
| PolicyAuthorize.KnownByTables | internal/broker/policy/authorize.go:18-21 | an identity is in the table just when some raw host has it, trimmed |
| PolicyAuthorize.GrantedByTables | internal/broker/policy/authorize.go:18-30 | the tables allow a profile just when a raw host with this identity refers to it, and then it exists |
| PolicyAuthorize.AuthorizeMeansConfig | internal/broker/policy/authorize.go:14-41 | `Compile` then `Authorize` allows exactly what the raw configuration grants, with the set of names compared, and hands back the profile asked for |
| PolicyAuthorize.RefusalMeansConfig | internal/broker/policy/authorize.go:14-41 | what each refusal says about the raw configuration; the unknown-profile error never happens |
| PolicyAuthorize.HostMeaning | internal/broker/policy/compile.go:152-179 | the name, identity and set of profiles of a compiled host, from the raw one |
| PolicyHash.HashDecidesExactly | internal/broker/policy/hash.go:42-74 | for two sets of profile keys, equal hashes imply equal decisions on every request if and only if no key they share changes place between lists that trim alike |
| PolicyHash.UnshadowedKeysSuffice | internal/broker/policy/hash.go:42-74 | it is enough that no padded key of one policy stands beside its trimmed form |
| PolicyHash.PaddedKeysMislead | internal/broker/policy/compile.go:37-43 | keys `" p"`, `"p"` against `"p"`, `"p "`: equal hashes, different decisions |
| PolicyHash.DifferentPlacesDisagree | internal/broker/policy/hash.go:51-74 | a shared key at two places always yields two configurations that share a hash and disagree |
| PolicyHash.AgreeOn | internal/broker/policy/hash.go:42-74 | equal hashes with keys in place give one answer to a request, names, ACME settings and renewal time included |
| RateLimit.ListsRefineHistory | internal/broker/ratelimit/limiter.go:21-48 | the pruned lists say of any window in reach what the full admission history says |
| RateLimit.DecisionByHistory | internal/broker/ratelimit/limiter.go:21-38 | a call is admitted exactly when counting the full history over the last hour admits it at both levels |
| RateLimit.AdmittedExactly | internal/broker/ratelimit/limiter.go:28-36 | in plain numbers, when a call is admitted and which limit refuses it |
| RateLimit.DecisionByPairs | internal/broker/ratelimit/limiter.go:24-36 | with identities kept apart the count is of the very pair asked for |
| RateLimit.WindowBound | internal/broker/ratelimit/limiter.go:21-38 | under a clock that never goes back, no hour of any run, wherever it ends, has more admissions than a positive limit, per identity and per pair |
| RateLimit.ListBounded | internal/broker/ratelimit/limiter.go:26-36 | a list with a positive limit never grows beyond it |
| RateLimit.RefusalChangesNothing | internal/broker/ratelimit/limiter.go:26-34 | leaving out a refused call changes no later decision |
| RateLimit.PairKeyCollides | internal/broker/ratelimit/limiter.go:24 | two pairs share a profile key only if one identity is the other followed by a NUL |
| RateLimit.PairsAddUp | internal/broker/ratelimit/limiter.go:21-38 | an identity's admissions in a window are the sum of its pair admissions |
| RateLimit.ListsAddUp | internal/broker/ratelimit/limiter.go:26-36 | so it is with the limiter's own lists at any cutoff in reach |
| RateLimit.ProfileLimitIdleExactly | internal/broker/ratelimit/limiter.go:29-34 | a profile limit at least the identity limit never refuses, just when no identity extends another by a NUL |
| RateLimit.ProfileLimitIdleWithoutNuls | internal/broker/ratelimit/limiter.go:29-34 | in particular it never refuses for identities without NULs |
| Limiter.Append | internal/broker/ratelimit/limiter.go:40-48 | `append` writes in place while there is room, else to a new array |
| Limiter.Prune | internal/broker/ratelimit/limiter.go:40-48 | compaction in the input's own array leaves exactly the order-preserving filter and touches nothing past it |
| Limiter.PruneAt | internal/broker/ratelimit/limiter.go:26-27 | pruning one key's slice changes no other key's list |
| Limiter.AppendAt | internal/broker/ratelimit/limiter.go:35-36 | appending for one key changes no other key's list, and backing arrays stay unshared |
| Limiter.Limiter.constructor | internal/broker/ratelimit/limiter.go:17-19 | a new limiter has empty lists |
| Limiter.Limiter.Allow | internal/broker/ratelimit/limiter.go:21-38 | verdict and new contents are those of the function `RateLimit.Allow`; no two keys ever share a backing array |
| CacheKey.JoinNulInjective | internal/broker/store/cache.go:32-42 | joining with NUL loses nothing when no field but the last contains one |
| CacheKey.StringInjective | internal/broker/store/cache.go:32-42 | NUL-free keys with one string are one key |
| CacheKey.SameStringSameDigests | internal/broker/store/cache.go:32-42 | whatever the identity contains, keys of one issuer with one string have the same two digests |
| CacheKey.SameStringExactly | internal/broker/store/cache.go:32-42 | keys of one broker share a string exactly when they share the digests and the joined identity and profile name |
| Store.FileStore.GetValidCertificate | internal/broker/store/cache.go:77-96 | said of the file: no file is a miss, one that does not decode a failure, any other answers by the joined string and the time left |
| Store.FileStore.PutCertificate | internal/broker/store/cache.go:98-121 | by one atomic write of all entries: it succeeds exactly when there is no file or one that decodes and no operation fails; the first creation time is kept; a failed put leaves the entries as they were, or new just when only syncing the directory failed |
| Store.FirstPutIsServed | internal/broker/store/cache.go:187-193 | what the first put of a new store leaves is that one entry, which a get in time is served |
| Store.SqliteStore.GetValidCertificate | internal/broker/store/sqlite_cache.go:101-117 | the answer is that of the row under the seven columns |
| Store.SqliteStore.PutCertificate | internal/broker/store/sqlite_cache.go:119-146 | the upsert keeps the rows unique and the first creation time |
| Store.StoresAgree | internal/broker/store/sqlite_cache.go:101-146 | with NUL-free keys and expiry in whole seconds, after any sequence of puts both stores answer every get like one map from keys to latest bundles |
| Store.CreationTimeKept | internal/broker/store/cache.go:98-121 | both stores keep the time of the first put |
| Store.UpdateTimeIsLast | internal/broker/store/cache.go:113-118 | the update time and the bundle in both stores are those of the last put |
| Store.StoresAgreeExactly | internal/broker/store/sqlite_cache.go:101-146 | for given keys and bundles, both stores answer every get alike after every sequence of puts and gets, if and only if no two keys share a string and all bundles have whole-second times |
| Store.StringsApartByNames | internal/broker/store/cache.go:32-42 | for keys of one broker that condition is one on identities and profile names, and holds when no identity extends another by a NUL |
| Store.ServedAlikeExactly | internal/broker/store/sqlite_cache.go:137-138 | whatever the stores hold, a bundle put into both is hit or missed alike by all gets just when its expiry is in whole seconds |
| Store.NulsMixKeys | internal/broker/store/cache.go:32-42 | an example of keys with NULs: the file serves one key's bundle for another, the table does not |
| BrokerSteps.Arrivals | internal/broker/issue.go:21-31 | a request starts with nothing known of it; one that cannot be named is answered 500 |
| BrokerSteps.Authentications | internal/broker/issue.go:64-77 | no identity is answered 401 and denied; any other is received |
| BrokerSteps.Parsings | internal/broker/issue.go:79-109 | what is answered 400, under which profile name, and what a well-formed request leaves |
| BrokerSteps.Authorizations | internal/broker/issue.go:111-135 | a request goes on exactly when the last valid configuration since the start grants it, whatever was reloaded without success; 503 with none, 403 otherwise |
| BrokerSteps.Fingerprints | internal/broker/issue.go:137-145 | a key without a fingerprint is answered 400 |
| BrokerSteps.AuthorizationsRecorded | internal/broker/issue.go:147-154 | failing open a request is taken on whatever the recorder does; failing closed just when it succeeds, else answered 503 |
| BrokerSteps.OutcomesRecorded | internal/broker/issue.go:189-196 | the same of the outcome, whose event agrees with the cache |
| BrokerSteps.RateChecks | internal/broker/issue.go:156-164 | admission or 429, by the admissions since the start in the hour that ends now |
| BrokerSteps.Joinings | internal/broker/issue.go:166-169 | a request waits for the flight in progress under its key string, or leads a new one |
| BrokerSteps.LookUps | internal/broker/issue.go:198-206 | what a flight takes from the store, and when it calls the issuer |
| BrokerSteps.IssuesAndPuts | internal/broker/issue.go:207-220 | what is put, and when the flight fails |
| BrokerSteps.FlightEnds | internal/broker/issue.go:166-169 | a flight that ends hands out what it returned and frees its string |
| BrokerSteps.Collections | internal/broker/issue.go:170-186 | a failed flight is answered 502, any other gives its result |
| BrokerSteps.Responses | internal/broker/issue.go:61 | the response is 200 with the result |
| BrokerSteps.Reloads | internal/broker/policy/manager.go:26-33 | a valid configuration comes into force, any other changes nothing |
| BrokerSteps.PolicyInForce | internal/broker/policy/manager.go:26-42 | in every run the policy in force is that of the last valid reload since the last start |
| BrokerInvariant.StepKeeps | internal/broker/issue.go:21-233 | every step of the protocol keeps the invariant |
| BrokerInvariant.AlwaysSane | internal/broker/issue.go:21-233 | in every reachable state each stored bundle carries the key and the names its cache key stands for, each request is where its record and the log say, each flight is the only one under its string |
| BrokerRuns.OneCallInProgress | internal/broker/issue.go:166-169 | never two issuer calls in progress under one cache key |
| BrokerRuns.NoIssuanceBeforeRenewal | internal/broker/issue.go:198-221 | once a certificate has reached the store, even by a put reported as failed, no issuer call for its key starts before its renewal time, over any reloads and restarts; the renewal time is fixed by the key |
| BrokerRuns.ResponseDeserved | internal/broker/issue.go:111-187 | every 200 response, fresh, cached or shared, carries that requester's key and exactly the names of the profile granted in the policy it was authorized under |
| BrokerRuns.ResponseAudited | internal/broker/issue_audit.go:88-127 | failing closed, a 200 response follows a logged authorization and then a logged issuance or cache hit, as the response says, of its own request |
| BrokerRuns.IssuerCallAudited | internal/broker/issue.go:147-154 | failing closed, an issuer call follows a logged authorization for the same key |
| BrokerRuns.AnsweredOnce | internal/broker/issue.go:21-62 | an ended request has exactly one response, any other has none |
| BrokerRuns.IssuerCallsCharged | internal/broker/issue.go:156-187 | each issuer call is charged to an admission of its own, of its flight's leader, with the same identity and profile; so in any window calls never exceed admissions, per identity and per pair |
| BrokerRuns.IssuerCallsLimited | internal/broker/issue.go:48-55 | so, since the broker's last start, no hour of admissions leads to more issuer calls than the limit |
| BrokerProgress.NeverStuck | internal/broker/issue.go:166-187 | in every reachable state an open request, or the flight it waits for, has a step that brings it nearer to its response: no deadlock between followers and flights |
| BrokerProgress.StepsOnlyAdvance | internal/broker/issue.go:21-221 | whatever fails, no step but a restart takes a request back, and its own steps and its flight's take it forward |
| BrokerProgress.AtMostFourteenSteps | internal/broker/issue.go:21-221 | between restarts a request and the flights it waits for take at most fourteen steps, and it is closed when its rank is used up |
| BrokerProgress.CanAlwaysBeAnswered | internal/broker/issue.go:21-62 | any run can be continued until a given request has its response |
| BrokerSuccess.CanBeCertified | internal/broker/issue.go:48-61 | with an issuer that can certify what it is asked for, any run can be continued until a given admitted request, whose flight has not failed, has a 200 response with a certificate; failing open, whatever the recorder does |
| BrokerEvents.OutcomesComeFromCollectors | internal/broker/issue_audit.go:88-108 | every issued or cache-hit event was recorded by a request that had collected that very result, and no two are of one request |
| BrokerEvents.LogOnlyGrows | internal/broker/issue_audit.go:110-120 | nothing is ever taken from the log, not by a restart either |
| BrokerEvents.IssuedEventsHaveCalls | internal/broker/issue.go:207-220 | when an issued event is recorded, the flight its request collected from, of the same key string, has called the issuer and stored what it made |
| BrokerExamples.FollowersLogToo | internal/broker/issue_audit.go:88-96 | wherever two requests can be granted one certificate there is, under any limits, a run with one issuer call and two issued events |
| BrokerExamples.RestartsForget | internal/broker/ratelimit/limiter.go:17-19 | under any limits, for every n, there is a run with n - 1 restarts that admits n like requests at one time |
| BrokerLives.LimitedAcrossRestarts | internal/broker/ratelimit/limiter.go:17-38 | over a run with r restarts no hour has more than r + 1 times the limit of admissions, per identity and per pair |
| BrokerStore.FileBrokerIsTheBroker | internal/broker/store/cache.go:77-121 | the broker over the JSON file, with reads that fail and puts that do not apply or report failure, has exactly the runs of the protocol |
| BrokerStore.TableBrokerIsTheBroker | internal/broker/store/sqlite_cache.go:101-146 | so has the broker over the table, when the bundles put have whole-second times |
| BrokerStore.ResultsAreServed | internal/broker/issue.go:198-220 | what a flight returns, stored or fresh, the store would serve at that instant, given that fresh certificates outlive the renewal time |
| BrokerRuns.AlwaysLimiterOk | internal/broker/issue.go:156-164 | the broker's limiter is always in the state of a run of `Allow` under an ordered clock |
| AtomicFile.WriterRunAt | internal/fileutil/fs.go:29-72 | what all the files are at every point of a call, failing or crashed |
| AtomicFile.AtomicAtEveryPoint | internal/fileutil/fs.go:29-72 | at every point the target is complete, old or new; success means new, and before the rename it is old |
| AtomicFile.ErrorAfterRename | internal/fileutil/fs.go:62-69 | a call can fail with the new content in place |
| Disk.FileSystem.FillTemp | internal/fileutil/fs.go:47-61 | write, mode, sync and close of the temporary file, as a run of the operations that ends in the first failure |
| Disk.FileSystem.RenameTemp | internal/fileutil/fs.go:62-69 | the rename puts the data in place and only it does; an error after it leaves them there |
| Disk.FileSystem.WriteFileAtomic | internal/fileutil/fs.go:29-72 | the call is such a run and its error is that of the first operation that fails, none if none does; which errors mean old and which mean new; no temporary file is left unless removing it fails |
| Disk.FirstFaultExactly | internal/fileutil/fs.go:31-69 | the error is that of the first of the eight operations that fails |
| Disk.FileSystem.AcquireLock | internal/fileutil/lock.go:21-34 | acquired just when there was no lock file, which there then is |
| Disk.FileSystem.ReleaseLock | internal/fileutil/lock.go:36-48 | the lock file is removed if it can be |
| Disk.FileSystem.EnsurePrivateKey | internal/pki/key.go:59-88 | which key is handed out, in every case; a key file that exists is never changed, and a missing one is made by one atomic write |
| Disk.FileSystem.WriteToDisk | internal/pki/bundle.go:20-35 | it ends at the first part whose write fails and succeeds if none does; the parts up to there are new and the rest old, in this order |
| Disk.InstalledInOrder | internal/pki/bundle.go:20-35 | with three paths, a part is new just when it is among the first, and nothing else changes |
| Agent.HasExactNames | internal/pki/cert.go:62-75 | true just when both lists are valid and denote one set |
| AgentPass.AcceptableExactly | internal/agent/run.go:109-118 | an answer is accepted exactly when its certificate decodes, carries the key and denotes the configured names, in any order and spelling |
| AgentPass.EnsureKey | internal/agent/run.go:59-69 | which key the pass gets, on any disk; making one where there is none breaks no installed certificate; it is what a process of the machine does |
| AgentPass.RequestCertificate | internal/agent/run.go:98-134 | when the broker is asked, and that it succeeds exactly for an acceptable answer that can be written and taken up |
| AgentPass.EnsureServiceCertificate | internal/agent/run.go:58-135 | exactly when it succeeds and exactly when it asks the broker, said of the files before, whatever they are: an existing certificate that does not parse or belongs to another key is refused; unless it asks, nothing but a missing key is written; certificates that were good stay so; what it does is what a process of the machine does |
| AgentPass.RunEntries | internal/agent/run.go:47-52 | the loop ends at the first certificate that fails, and succeeds when none does |
| AgentPass.PrepareIdentity | internal/agent/run.go:27-45 | when a pass goes on to its certificates, and that a renewed identity is in place then |
| AgentPass.RunLocked | internal/agent/run.go:27-55 | what happens between acquiring the lock and releasing it |
| AgentPass.Run | internal/agent/run.go:19-56 | nothing changes without the lock; the lock goes when it can; it succeeds exactly when locked, the identity in order and no entry fails; what it does is what a process of the machine does from waiting to gone |
| AgentTurns.TurnsInRun | internal/agent/run.go:19-135 | a process can take such turns inside any run of the machine in which the others stand still |
| AgentPass.InstalledKeeps | internal/pki/bundle.go:20-35 | stopping after any number of parts keeps every certificate good |
| AgentSafety.StepKeeps | internal/agent/run.go:58-123 | every step of any process keeps the invariant |
| AgentSafety.InstalledCertificatesMatch | internal/agent/run.go:58-123 | in every interleaving with crashes anywhere and any broker, an existing certificate file parses, matches the key file and has exactly the configured names |
| AgentSafety.MutualExclusion | internal/fileutil/lock.go:21-48 | never two live processes between acquire and release |
| AgentSafety.HolderWritesAlone | internal/fileutil/lock.go:21-48 | while a process holds the lock, files change by its own operations only |
| AgentSafety.CrashBlocks | internal/fileutil/lock.go:25-33 | a crash with the lock leaves every file as it is, the lock file too; until that is removed no process gets the lock and no file changes |
| AgentRenewal.TargetsChangeWhole | internal/fileutil/fs.go:62-65 | a chosen file changes only in one step to the whole of its writer's data: a key where there was none, or a bundle part accepted for the key on disk |
| AgentRenewal.AsksOnlyWhenWanted | internal/agent/run.go:76-104 | at every broker call the certificate is missing or within its renewal time |
| AgentRenewal.BundleWritesComeFromAnswers | internal/agent/run.go:76-122 | a process that writes a bundle, even one that is there already, has asked for it when its certificate was missing or due, and accepted it |
| AgentRenewal.BundleFilesComeFromAnswers | internal/agent/run.go:92-122 | a bundle file that changes becomes a part of such an answer |
| AgentRenewal.AnswerImproves | internal/agent/run.go:92-120 | an accepted answer of a broker that renews no later expires after the certificate that was due |
| AgentRenewal.ReplacementsExpireLater | internal/agent/run.go:92-120 | every replacement of a certificate, even by the same content, puts a strictly later expiry in place, for an entry renewed no earlier than the profile |
| AgentRenewal.RenewalMovesForward | internal/agent/run.go:76-123 | over any run a certificate never goes away, stays as it is while not replaced, and expires strictly later once it has been replaced |
| AgentForward.OverItself | internal/agent/run.go:92-120 | a run with timely answers in which an agent that renews an entry earlier than the profile renames the same certificate over itself |
| AgentForward.MovesForwardExactly | internal/agent/run.go:92-120 | every replacement in every timely run expires later if and only if the agent's renewal time for the entry is at most the profile's |

## Left out

- HTTP and TLS serving, JSON and YAML decoding, PEM, X.509, ASN.1, key generation and SHA-256: foreign code, here functions or step arguments.
- ACME through lego, step-ca and Vault clients, and secrets providers: foreign code behind the issuer.
- SQL text, migrations and the SQLite engine; the stores' `List` and the tables of audit rows: the cache table is rows under its seven-column constraint, the log a sequence.
- Configuration defaults and validation, logging, command line, deployment roles: checks field by field.
- `Manager.Watch`: when the file is looked at; a reload is a step that may happen at any time.
- Reason codes, severities and metadata of audit events, and the text of errors and responses: an event here is its request, kind, identity, profile and the two digests.
- A broker without a recorder, or with one that discards: the log of the model is what a recorder was given and kept.
- Panics inside a flight. A crash of the broker is a restart that keeps the store and the log.
- An issuer result of an unexpected type (`issue.go:177-184`): the flight returns one type only.
- `CompiledPolicy.LoadedAt`: it takes part in no decision and no hash.
- Enrolment of an agent's identity and what its renewal asks of step-ca: renewal is a write of the identity file with any content, or a refusal.
- The reload command and its timeout: success or failure.
- Loss of unsynced data when power fails: a crash ends a process, not the file system.
- Agreement of certificate, chain and full chain after a crash, and recovery of a stale lock: the code does not provide them.
- Directories, file modes and the contents of the lock file.
- Invalid UTF-8 in names, and lower-casing of letters outside ASCII other than the two that become ASCII letters.
- Concurrency in the cache and limiter objects: both work under a mutex, so a call is one step.
