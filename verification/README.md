# Verified core of the estate platform's client and stack

This project models four components of the repository in Dafny and proves what they are for.

**The extension's vault.** `KeyHolder` is the worker's key holder with the request protocol in front of it, each
request cut at its awaits; `VaultHost` is the host object with its token, expiry and idle timer. `VaultWorld` puts
them together: any number of operations in flight, timer firings, server replies and worker replies in any order.
`VaultWiring`, `VaultLifecycle`, `VaultKeys`, `VaultBarrier`, `VaultMirror`, `VaultAnswers`, `VaultReseal` and
`VaultUse` prove what holds in every reachable state, `VaultRuns` exhibits particular runs. `WorkerChannel` is the
id-correlated message channel and why it refines direct calls, `ChannelWorld` the whole extension over it.
`WriteProtocol` is `updateItem` against the vault service's rows, trigger and version images, and `WriteHistory` what
the rows go through.

**The stack's environment pipeline.** `Topology`, `EnvKeys` and `CredentialGraph` are the tables. `EnvGeneration`
generates, `EnvFile` prints and parses, `Readdressing` derives a second addressing, `StackFiles` writes files,
`Doctor` is the preflight, `ServiceEnv` projects one process. `EnvLookup`, `EnvPrinting` and `StackPipeline` join them
end to end; `MintedKeys` and `StackValues` say what a generated file holds, `EnvLines` what a line says, `DoctorLaws`
and `DoctorReports` what the preflight decides and reports, `ProcessVariables` what each process is given. The
credential graph, the mints (two streams of values) and the endpoint test `isLocalEndpoint` are parameters; the
declared graph is shown to be well formed.

**The origin decision.** `SuffixRules` is the Public Suffix List algorithm (publicsuffix.org/list, "Formal Algorithm")
and `SuffixLookup` the indexed lookup refining it, `RuleMatching` what both mean for a host's text;
`RegistrableDomains`, `EditDistance`, `Homoglyphs` and `OriginMatch` build the verdict, for every rule list of the
published shape: no rule ends in a wildcard or a number, and exceptions have at least two labels and no wildcard.

**Smaller codecs and clients.** `Router` and `RouteTable` are the operator edge's template router; `PercentEncoding`
and `Cookies` the cookie codec (RFC 6265 section 4.2.1, RFC 3986 section 2.1, RFC 3629 section 3), with
`PercentSpelling` and `CookieParts` for which texts they accept. `Session` is the paired session, any number of
`withSession` runs cut at their awaits against identity's rotation-reuse detection; `SessionLaws`, `SessionResults`
and `SessionRefusals` prove what holds in every interleaving, `SessionSerial` what more holds when calls are made one
at a time, and `SessionRuns` exhibits runs.

`Text`, `OrderedMap` and `Wrappers` hold the string operations, JavaScript's `Map` and option types they share.

Code that changes state in the source is a class or a method with loops here, proved against a specification
function; the laws are lemmas about those functions.

## What the proofs found

- **Key residency has a hole in one branch.** `unlock` drops the keys on every failure but one: when `prepare` is
  refused (apps/vault-extension/src/vault-host.ts:189-203). If the refusal comes from the second leg of `prepare`
  (apps/vault-extension/src/vault-worker-core.ts:166-183), derived key material stays in the worker with no timer
  armed. That leg fails when the server's public value is rejected, or when its preparation is gone on its return;
  only a lock taken, or another unlock's `finish` completed, in between takes it away (`VaultLifecycle.PreparationGone`).
  `VaultLifecycle.ResidentIffStranded` says exactly when material stays.
- **The mirror can be wrong**, exactly when a `finish` reply is overtaken by a lock (`VaultMirror`); it is right as long
  as no lock is posted while an unlock waits for its `finish`. A wrong mirror costs the requests it admits: each is
  refused, lowers the mirror, and ends its operation by an exception instead of an answer. It never grants a read.
- **A `finish` overtaken by a lock** sets the vault without the user id, and every read refuses, unless an overlapping
  unlock's second leg completes after that lock as well. Then a vault locked before is readable again
  (`VaultRuns.OverlappingUnlockReopens`), although every unlock began before the lock.
- **`normaliseHost` is not idempotent** in general, despite its comment: exactly on hosts with whitespace behind
  trailing dots it is not. **`homoglyphSkeleton`** is idempotent exactly on domains without `c1`.
- **A lost rotation costs the paired session.** Identity revokes a session on a refresh token already rotated away
  (apps/services/identity/src/auth.service.ts:371-386). If the reply to a rotation is lost, arrives incomplete, finds
  its popup closed, or is dropped by a failed disconnect (apps/vault-extension/src/popup.ts:166-173), the next refresh
  therefore ends the session; UNAUTHENTICATED is then true. So does a call that began before another call's rotation and
  refreshes after it, with nothing lost and no two refreshes overlapping, even if its own popup is closed by then
  (`SessionRuns.LateRefreshRevokes`).
- **UNAUTHENTICATED does not always mean that the session is gone**, contrary to the comment in `withSession`
  (apps/vault-extension/src/session.ts:153). It is told over a live session exactly when two rotations have overtaken the
  refresh, one more than identity's reuse detection remembers, or when the token just issued runs out before its retry
  (`SessionRefusals.UnauthenticatedMeans`). A status read is never overtaken, and no call is when calls are made one at a
  time.
- `PROXY_ROUTES` has seventeen rows (apps/operator-web/src/server.ts:67-173); the comment above it counts sixteen.

## Modelling decisions

- Between two awaits JavaScript runs without interruption, so every such stretch is one step; promise continuations
  triggered by one event count to that event's step.
- The worker takes requests in posting order and may suspend inside one; replies are delivered in any order.
- Identity handles one request at a time, its lookup and its rotation being one step; a failed request either never
  reached it or had been handled before it failed. Tokens never repeat. An authenticated call is answered anything but
  UNAUTHENTICATED. A popup may be closed at any moment; what it had in flight may reach identity at any time after. A new
  popup starts with its status read.
- A credential graph is well formed when no callee holds its own credential, no service finds two credentials under
  one variable, and a variable's name is one line, trimmed, without `=`, and not one of the stack's own names. Secrets
  are assumed distinct and non-empty where a theorem says `SecretsApart`, and minted values trimmed and on one line
  where it says `CleanMints`.
- A key the source writes out in full, such as `DOCUMENTS_OCR_URL`, is written as its service's prefix and the rest.
  Ports are texts. Exceptions are error results; a process environment built up to a missing key is that error.
- A finding carries its code and the keys its message names; message wording is not modelled.
- Where two exception rules match one host, the first in list order decides, as in the source.
- Case mapping is ASCII; strings are sequences of Unicode scalar values.

## Model

| member | source | states |
|---|---|---|
| `EditDistance.WithinOneEdit` | apps/vault-extension/src/origin-match.ts:57-76 | True exactly when the Levenshtein distance, by its full recurrence, is 1; symmetric despite the length swap |
| `EditDistance.OneEditLoop` | apps/vault-extension/src/origin-match.ts:57-76 | The two-pointer loop alone: deleting or substituting at the first mismatch loses no solution |
| `EditDistance.DistanceOneIsOneEdit` | apps/vault-extension/src/origin-match.ts:53-76 | Distance 1 is one deletion, insertion or substitution at some position, the reference definition said without recursion |
| `Homoglyphs.HomoglyphSkeleton` | apps/vault-extension/src/origin-match.ts:96-107 | The reassigning loop computes the skeleton |
| `Homoglyphs.SkeletonNormalForm` | apps/vault-extension/src/origin-match.ts:96-107 | The skeleton has no `rn`, `vv`, `nn`, `0`, `1`, `5`, is never longer, and has `cl` exactly when the input had `c1` |
| `Homoglyphs.IdempotentIffNoC1` | apps/vault-extension/src/origin-match.ts:96-107 | Folding twice is folding once if and only if the domain has no `c1` |
| `Homoglyphs.RnLooksLikeM` | apps/vault-extension/src/origin-match.ts:96-107 | `rn` and `m` in one place of any text give one skeleton |
| `Homoglyphs.VvLooksLikeW` | apps/vault-extension/src/origin-match.ts:96-107 | So do `vv` and `w`, unless a `v` stands before |
| `Homoglyphs.ClLooksLikeD` | apps/vault-extension/src/origin-match.ts:96-107 | So do `cl` and `d`, anywhere |
| `Homoglyphs.NnLooksLikeM` | apps/vault-extension/src/origin-match.ts:96-107 | So do `nn` and `m`, unless an `n` or `r` stands before |
| `Homoglyphs.DigitsLookLikeLetters` | apps/vault-extension/src/origin-match.ts:96-107 | So do `0` and `o`, and `5` and `s`, anywhere |
| `Homoglyphs.OneLooksLikeL` | apps/vault-extension/src/origin-match.ts:96-107 | So do `1` and `l`, except behind a `c` |
| `Homoglyphs.PlainIsItsSkeleton` | apps/vault-extension/src/origin-match.ts:96-107 | Text with none of these sequences and digits is its own skeleton |
| `SuffixRules.NormaliseIdempotentIff` | apps/vault-extension/src/registrable-domain.ts:43-60 | `normaliseHost` agrees with itself if and only if no whitespace hides behind trailing dots; the comment promises it always |
| `SuffixRules.NormaliseNotIdempotent` | apps/vault-extension/src/registrable-domain.ts:43-60 | `"a ."` is a host on which it does not |
| `SuffixRules.SuffixLengthPrevails` | apps/vault-extension/src/registrable-domain.ts:70-107 | A full scan picks the rule that the Public Suffix List algorithm makes prevail, and only that one |
| `SuffixRules.OrderOfOrdinaryRulesIrrelevant` | apps/vault-extension/src/registrable-domain.ts:86-107 | Reordering or repeating ordinary rules changes no suffix |
| `SuffixLookup.BuildIndex` | apps/vault-extension/src/registrable-domain.ts:30-41 | The index has, for every last label, exactly the rules of that label in list order |
| `SuffixLookup.PublicSuffix` | apps/vault-extension/src/registrable-domain.ts:79-107 | The bucketed lookup with its early return equals the full scan for every host and rule list of the published shape |
| `SuffixLookup.ScanBucket` | apps/vault-extension/src/registrable-domain.ts:86-107 | The loop over one bucket: first matching exception less one label, otherwise the longest match, otherwise one label |
| `SuffixLookup.BucketSuffices` | apps/vault-extension/src/registrable-domain.ts:85-86 | Rules outside the bucket of the last label can never decide |
| `RuleMatching.MatchesIffFilled` | apps/vault-extension/src/registrable-domain.ts:62-71 | A rule matches a host if and only if its text, with some label in place of each `*`, is the host or ends it behind a dot |
| `RuleMatching.PlainRuleMatches` | apps/vault-extension/src/registrable-domain.ts:62-71 | A rule without a wildcard, exception or not, matches exactly the hosts that are its text or end in a dot and its text |
| `RuleMatching.WildcardIsOneLabel` | apps/vault-extension/src/registrable-domain.ts:62-71 | `*.rest` matches exactly the hosts that end in one label, a dot and `rest`: the wildcard is one label, never none and never several |
| `RuleMatching.PublicSuffixIsText` | apps/vault-extension/src/registrable-domain.ts:73-107 | A host has the public suffix `p` if and only if it ends in `p` at a label boundary and `p` is what the prevailing rule calls for: an exception's text less its first label, a filling of a longest ordinary rule, or one label |
| `RegistrableDomains.IPv4Text` | apps/vault-extension/src/registrable-domain.ts:118-123 | An address is four groups of one to three digits with dots between them, and nothing else |
| `RegistrableDomains.RegistrableDomainLaws` | apps/vault-extension/src/registrable-domain.ts:109-133 | A registrable domain is a label-boundary suffix of the host with one label more than its public suffix, has no empty label, is no suffix itself and is its own registrable domain |
| `OriginMatch.IsConfusable` | apps/vault-extension/src/origin-match.ts:162-166 | The lookalike test |
| `OriginMatch.LookalikeSymmetric` | apps/vault-extension/src/origin-match.ts:162-166 | Symmetric, and no domain resembles itself |
| `OriginMatch.SiteIsRegistrableDomain` | apps/vault-extension/src/registrable-domain.ts:109-133 | The site of a host, described without computing it, is what `registrableDomain` returns |
| `OriginMatch.FillMeansOneSite` | apps/vault-extension/src/origin-match.ts:174-202 | A fill is allowed if and only if both hosts lie in one site and the page is no downgrade from https |
| `OriginMatch.VerdictBySites` | apps/vault-extension/src/origin-match.ts:174-197 | Each verdict is returned if and only if what it says of the two sites is true: one site and no downgrade, one site and a downgrade, two sites with one skeleton or one edit between them in that order, two other sites, or a side without one |
| `OriginMatch.SiteStandsForHost` | apps/vault-extension/src/origin-match.ts:174-197 | The verdict sees a host only through its site |
| `OriginMatch.VerdictSymmetric` | apps/vault-extension/src/origin-match.ts:174-197 | Every verdict but the downgrade reads the same from both sides |
| `KeyHolder.VaultKeyHolder.Handle` | apps/vault-extension/src/worker-protocol.ts:112-184 | One request up to its first await, on the holder's four fields |
| `KeyHolder.VaultKeyHolder.Continue` | apps/vault-extension/src/vault-worker-core.ts:166-208 | A suspended request resumed, including what a failure leaves set |
| `KeyHolder.VaultKeyHolder.LockHolder` | apps/vault-extension/src/vault-worker-core.ts:463-469 | Clears every field |
| `KeyHolder.ProtocolArms` | apps/vault-extension/src/worker-protocol.ts:112-184 | Every answer carries the arm its sender tests for, or a refusal |
| `KeyHolder.OnlyFinishOpens` | apps/vault-extension/src/vault-worker-core.ts:190-208 | Only a completed `finish` opens a vault; a locked holder gives nothing from one |
| `VaultHost.VaultHost.Touch` | apps/vault-extension/src/vault-host.ts:150-158 | Clears the old timer and arms one for the idle limit |
| `VaultHost.VaultHost.DropKeys` | apps/vault-extension/src/vault-host.ts:160-168 | Clears token, expiry and timer and posts one lock |
| `VaultHost.VaultHost.FinishUnlock` | apps/vault-extension/src/vault-host.ts:253-260 | Token, expiry and timer after a successful unlock |
| `VaultHost.VaultHost.Enter` | apps/vault-extension/src/vault-host.ts:349-355 | The guard of every read and write: refused without a token or with the mirror down, otherwise a touch |
| `VaultHost.VaultHost.LockVault` | apps/vault-extension/src/vault-host.ts:435-441 | Keys first, whatever becomes of the network call |
| `VaultHost.LifecycleKept` | apps/vault-extension/src/vault-host.ts:150-168 | Touching, dropping and opening keep token, expiry and timer together |
| `VaultLifecycle.AlwaysLifecycle` | apps/vault-extension/src/vault-host.ts:150-260 | In every interleaving: token, expiry and idle handle are set together, the live timers are exactly that handle, and a held token is never older than the last touch plus the idle limit |
| `VaultLifecycle.AlwaysResident` | apps/vault-extension/src/vault-host.ts:177-260 | In every interleaving: key material in the worker means that the timer is armed, a lock is queued, an unlock past its derivation is in flight, or the second leg of a `prepare` failed and left it there |
| `VaultLifecycle.ResidentIffStranded` | apps/vault-extension/src/vault-host.ts:189-203 | Once nothing is left that would clear the worker, it holds key material if and only if some second leg was refused with keys in the holder, or resumed with its preparation gone, and no lock has been taken since |
| `VaultLifecycle.PreparationGone` | apps/vault-extension/src/vault-worker-core.ts:166-208 | A second leg finds its preparation gone only if a lock was taken, or another unlock's `finish` completed, while it was suspended |
| `VaultRuns.RefusedProofStrands` | apps/vault-extension/src/vault-host.ts:189-203 | A run: the server's public value is refused, `unlock` fails without dropping keys, and material stays |
| `VaultRuns.LockBetweenLegsStrands` | apps/vault-extension/src/vault-worker-core.ts:166-183 | A run: a lock between the two legs of `prepare` is undone by the second leg |
| `VaultRuns.MirrorCanBeWrong` | apps/vault-extension/src/worker-key-holder.ts:79-88 | A run of the failing case: a `finish` reply overtaken by `lock()` sets the mirror back over a locked worker |
| `VaultRuns.OverlappingUnlockReopens` | apps/vault-extension/src/vault-worker-core.ts:166-208 | A run: two unlocks and a lock that overtakes both; the second leg of the one and the `finish` of the other reopen a readable vault |
| `VaultMirror.MirrorWrongIffOvertaken` | apps/vault-extension/src/worker-key-holder.ts:79-88 | In every interleaving: a true mirror is wrong if and only if a lock, posted before the reply that set it was delivered, was taken after that `finish` was answered, and nothing has opened the vault since |
| `VaultMirror.MirrorRightIfUndisturbed` | apps/vault-extension/src/worker-key-holder.ts:31-38 | As long as no lock is posted while an unlock waits for its `finish`, a true mirror means a readable vault with no lock on its way |
| `VaultMirror.WrongMirrorCostsOneRequest` | apps/vault-extension/src/worker-key-holder.ts:90-150 | Any read, seal or reseal that found the worker locked, whatever else is queued: its reply lowers the mirror, ends the operation by an exception and changes nothing else |
| `VaultMirror.DarkUntilFinish` | apps/vault-extension/src/vault-host.ts:349-355 | With the mirror down nothing is admitted until the reply of a `finish` arrives |
| `VaultAnswers.ThrewIffRefused` | apps/vault-extension/src/vault-host.ts:349-430 | In every interleaving: an operation ends by an exception, its message unanswered, if and only if a read, seal or reseal of its own came back refused |
| `VaultAnswers.ReadThrewIffLocked` | apps/vault-extension/src/vault-host.ts:349-430 | A read or reseal throws if and only if the worker had no readable vault when it took the request |
| `VaultAnswers.SealThrewIff` | apps/vault-extension/src/vault-host.ts:274-295 | A seal throws if and only if the worker had no readable vault when it took the request, or the sealing itself failed |
| `VaultReseal.ResealAnswered` | apps/vault-extension/src/vault-worker-core.ts:365-397 | In every interleaving an edit's request is refused if and only if the vault was unreadable when taken, and answered with a blob if and only if both its legs succeeded and the vault was readable when the first resumed; only then does the edit go on to its PUT |
| `VaultReseal.LockStopsReseal` | apps/vault-extension/src/vault-worker-core.ts:322-324 | A lock taken before an edit's first leg resumes, with no unlock completed since, stops the edit: no blob, and its operation never reaches the PUT |
| `VaultKeys.HeldIffStanding` | apps/vault-extension/src/vault-worker-core.ts:166-208 | In every interleaving the worker holds preparation, session, vault or user if and only if a successful leg gave it and neither a lock nor, for the first two, a completed `finish` has taken it since |
| `VaultKeys.StartedIff` | apps/vault-extension/src/vault-worker-core.ts:186-208 | A `finish` is started if and only if preparation and session stand, a read, seal or reseal if and only if vault and user do; otherwise it is refused |
| `VaultUse.TokenWasGranted` | apps/vault-extension/src/vault-host.ts:229-260 | In every interleaving the token and expiry held are those the server granted to one unlock that completed |
| `VaultUse.LocksFifteenMinutesAfterLastUse` | apps/vault-extension/src/vault-host.ts:150-158 | While a token is held exactly one timer is live, fifteen minutes after the last operation let in or unlock completed, and that time is not past |
| `VaultUse.LockTellsServerIff` | apps/vault-extension/src/vault-host.ts:428-442 | `lock()` calls the server if and only if it holds a granted, non-empty token and has a bearer; the lock message is posted either way |
| `VaultBarrier.LockIsABarrier` | apps/vault-extension/src/worker-key-holder.ts:152-159 | Nothing posted after a lock is answered from the vault unless both a second leg of a `prepare` and a `finish` completed in between, whatever the mirror says |
| `VaultBarrier.DataComesAfterLocks` | apps/vault-extension/src/vault-host.ts:349-430 | The same for what an operation returns to its caller |
| `VaultBarrier.LateFinishNeedsAnotherUnlock` | apps/vault-extension/src/vault-worker-core.ts:190-208 | What is read after a lock that overtook a `finish` needs the second leg of another unlock completed after that lock |
| `VaultBarrier.LateFinishStaysUnreadable` | apps/vault-extension/src/vault-worker-core.ts:190-208 | When every `prepare` was answered before the worker took the lock, no late `finish` makes anything readable |
| `VaultWiring.AlwaysWired` | apps/vault-extension/src/worker-key-holder.ts:60-66 | In every run each suspended operation waits for its own unanswered call of the right kind |
| `WorkerChannel.WorkerKeyHolder.Send` | apps/vault-extension/src/worker-key-holder.ts:60-66 | A fresh id, a pending entry, one message: the sending step of the channel |
| `WorkerChannel.WorkerKeyHolder.OnMessage` | apps/vault-extension/src/worker-key-holder.ts:45-54 | Resolves and forgets the entry with that id, the receiving step of the channel; an unknown id does nothing |
| `WorkerChannel.WorkerKeyHolder.SettleResponse` | apps/vault-extension/src/worker-key-holder.ts:79-150 | What each method makes of its response, and the mirror after it |
| `WorkerChannel.WorkerKeyHolder.LockHolder` | apps/vault-extension/src/worker-key-holder.ts:152-159 | Mirror down before the message goes out |
| `WorkerChannel.ChannelRefinesCalls` | apps/vault-extension/src/worker-key-holder.ts:41-66 | Every run of the channel, with replies in any order, is a run of direct calls to the holder |
| `WorkerChannel.EachReplyResolvesOnce` | apps/vault-extension/src/worker-key-holder.ts:41-66 | Ids are never reused; each reply in flight resolves one pending entry, with an arm its sender tests for, and no other message has its id |
| `WorkerChannel.NeverAgain` | apps/vault-extension/src/worker-key-holder.ts:45-54 | Once a reply has been received, no continuation of the run waits for its call, handles it or answers it again |
| `ChannelWorld.WorldMakesDirectCalls` | apps/vault-extension/src/worker-protocol.ts:112-184 | Each step of the whole extension makes exactly the direct calls listed for it: what it posts, what the worker takes or resumes, what is delivered, and the lock a failed unlock posts |
| `ChannelWorld.ExtensionOverChannel` | apps/vault-extension/src/worker-key-holder.ts:41-66 | Every run of the extension is carried by a run of the channel that is in the same state, call by call |
| `ChannelWorld.ChannelStaysWithin` | apps/vault-extension/src/worker-key-holder.ts:41-66 | Whatever the channel can do next in any run, taking, resuming, or receiving in any order, is a step the extension can take, and the two agree again after it |
| `WriteProtocol.RevisionTokenIsSafe` | apps/vault-extension/src/vault-host.ts:296-347 | In every interleaving of edits, overwrites, deletions and restores: no lost update, no ABA, every stored and captured blob opens under the version stored with it |
| `WriteProtocol.AcceptedPutIsExact` | apps/vault-extension/src/vault-host.ts:296-347 | An accepted PUT was merged into exactly the row it replaces and sealed for the version the service writes |
| `WriteProtocol.BlobVersionTokenLosesUpdates` | apps/services/vault/src/items.repo.ts:463-485 | With the blob version in place of the revision a restore brings an old number back and an update is lost |
| `WriteHistory.NothingIsForgotten` | apps/services/vault/migrations/005_vault_item_revision.sql:37-73 | In every run the captured images and the row are the revisions one, two, three and so on, none missing |
| `WriteHistory.EveryChangeIsExplained` | apps/services/vault/src/vault.service.ts:509-735 | In every run a row changes only by an accepted edit or overwrite of exactly that row, a delete, an undelete, or a restore of a version that was live, each with its content and numbers |
| `WriteHistory.AcceptedIff` | apps/services/vault/src/vault.service.ts:509-725 | An edit or overwrite is accepted if and only if the row is live and still the one its user saw; a restore if and only if the row is live, at the revision named, and that version was live; a create if and only if there is no such item |
| `WriteHistory.GoesOnIffListed` | apps/vault-extension/src/vault-host.ts:296-347 | An edit goes on to its PUT if and only if the item was live and on the page it re-read |
| `WriteHistory.FirstWriterWins` | apps/vault-extension/src/vault-host.ts:296-347 | No two accepted edits of an item started from the same row |
| `OrderedMap.MapOfAgrees` | apps/stack/src/generate-env.ts:274-276 | `new Map(entries)`: entries that never disagree about a key are found under it |
| `Topology.PlaceFinds` | apps/stack/src/topology.ts:185-208 | Every service is deployed exactly once |
| `EnvKeys.PrefixIs` | apps/stack/src/topology.ts:224-235 | The env prefix of each service |
| `EnvKeys.KeyTextInjective` | apps/stack/src/topology.ts:224-235 | No two keys of the file are written alike, for any credential names that are not reserved |
| `CredentialGraph.AssignCredentials` | apps/stack/src/generate-env.ts:91-118 | One secret per held edge, in the callee's slot and every holder's, and nothing else |
| `CredentialGraph.DeclaredGraph` | packages/auth-guard/src/credential-graph.ts:151-414 | The declared graph is well formed and every edge has a holder |
| `CredentialGraph.SlotIsGranted` | apps/stack/src/generate-env.ts:101-118 | A slot of a held edge is granted that edge's secret |
| `CredentialGraph.GrantedIsSlot` | apps/stack/src/generate-env.ts:101-118 | A service is granted nothing but the slots of held edges |
| `CredentialGraph.SecretsAreOwn` | apps/stack/src/generate-env.ts:101-118 | Two held edges never draw the same secret |
| `CredentialGraph.InboundAre` | packages/auth-guard/src/credential-graph.ts:437-439 | The edges a service is called by |
| `CredentialGraph.OutboundAre` | packages/auth-guard/src/credential-graph.ts:442-444 | The edges a service may present |
| `EnvGeneration.GenerateEnv` | apps/stack/src/generate-env.ts:123-261 | The generator writes exactly the planned sections: keys, order, values, and the n-th call of a mint for each minted one |
| `MintedKeys.CallFillsKey` | apps/stack/src/generate-env.ts:150-190 | The n-th call of the key mint is the value of the n-th minted key: eight master keys in service order, then the four index keys |
| `MintedKeys.MaterialIsNeverShared` | apps/stack/src/generate-env.ts:181-190 | With a mint that never repeats itself no two keys of the file that hold key material hold the same value |
| `MintedKeys.OneKeyPerCall` | apps/stack/src/generate-env.ts:150-190 | The value of each call stands in exactly one key with key material |
| `StackValues.InfrastructureValues` | apps/stack/src/generate-env.ts:128-160 | Brokers, cloud endpoint and certificate: by container name in the network, by published port on the host, over TLS in production |
| `StackValues.ConstantValues` | apps/stack/src/generate-env.ts:128-256 | Region, dummy credentials, bucket, sender and relying party, whatever mode and addressing |
| `StackValues.ServiceValues` | docker-compose.stack.yml:73-121 | Each service is given its own cluster's container or published port and database, and its own key id; vault and audit have no key variables |
| `StackValues.DocumentValues` | apps/stack/src/generate-env.ts:192-205 | Documents' adapters are the real ones, at the addresses of the addressing |
| `StackValues.CarrierValues` | apps/stack/src/generate-env.ts:205-251 | Notices are real in both modes; plaid and the assistant are stubbed in development and pinned to profiles nothing activates in production |
| `EnvGeneration.ServiceSection` | apps/stack/src/generate-env.ts:157-178 | One service's section: database, key material if it has any, granted credentials |
| `EnvLookup.KeysArePlanned` | apps/stack/src/generate-env.ts:123-261 | The file has a key if and only if it is planned |
| `EnvLookup.Lookup` | apps/stack/src/generate-env.ts:123-276 | Looking a key up gives its planned value, and an unplanned key nothing, although later entries win |
| `Readdressing.AddressingDependentKeys` | apps/stack/src/generate-env.ts:271-284 | The two-fold generation with constant mints, as a loop over the first map |
| `Readdressing.DependentForAllMints` | apps/stack/src/generate-env.ts:263-284 | That set is right for all mints and all texts: a text is in it if and only if looking it up differs between the addressings |
| `Readdressing.DependentIsFixed` | apps/stack/src/generate-env.ts:263-284 | No minted key is in it |
| `Readdressing.MintOrderIgnoresAddressing` | apps/stack/src/generate-env.ts:123-284 | Which mint call fills a key does not depend on addressing |
| `Readdressing.DeriveEnv` | apps/stack/src/generate-env.ts:304-341 | The nested loops with their list of missing keys |
| `Readdressing.DeriveGivesView` | apps/stack/src/generate-env.ts:304-341 | For every source: derivation succeeds if and only if the mode matches and no needed key is missing, and then no fresh value enters |
| `Readdressing.ReaddressingCommutes` | apps/stack/src/generate-env.ts:286-341 | Deriving addressing b from what was generated for a is what b would have generated from the same mints |
| `Readdressing.PathIndependent` | apps/stack/src/generate-env.ts:286-341 | For every source, re-addressing through a changes nothing about b |
| `Readdressing.SameAddressingIsIdentity` | apps/stack/src/generate-env.ts:286-341 | Re-addressing a file to its own addressing keeps every value |
| `EnvFile.ParseEnvFile` | apps/stack/src/env-file.ts:11-24 | The line loop: last assignment wins, in insertion order |
| `EnvFile.RenderEnvFile` | apps/stack/src/generate-env.ts:406-436 | The printing loops |
| `EnvFile.RenderSection` | apps/stack/src/generate-env.ts:423-434 | One section: title, note line by line, entries, blank line |
| `EnvFile.RoundTrip` | apps/stack/src/generate-env.ts:406-436 | Parsing a rendered file gives exactly the last-wins map of its entries, whatever titles and multi-line notes say |
| `EnvFile.LineEndingsIgnored` | apps/stack/src/env-file.ts:13-14 | Unix and Windows line endings parse alike, whatever the file says |
| `EnvLines.LineSays` | apps/stack/src/env-file.ts:14-23 | A line gives an entry if and only if it is `key=value` at its first equals sign, white space around either ignored, with a key that is neither empty nor a comment |
| `EnvLines.LastLineDecides` | apps/stack/src/env-file.ts:12-24 | A key has the value of the last line that gives it |
| `EnvPrinting.GeneratedWritable` | apps/stack/src/generate-env.ts:123-261 | Everything generated survives a dotenv line |
| `EnvPrinting.FileGivesEnvironment` | apps/stack/src/generate-env.ts:406-436 | Printing and parsing a generated environment gives it back |
| `StackFiles.WriteStackEnv` | apps/stack/src/generate-env.ts:364-403 | The outcome and the files afterwards, in all five cases |
| `StackFiles.NeverClobbers` | apps/stack/src/generate-env.ts:351-384 | Without force no existing file changes; a refusal changes nothing |
| `StackFiles.WritesExactly` | apps/stack/src/generate-env.ts:351-403 | Which outcome in which case, and what is written: generated without a source, derived from it with one, never generated in its place |
| `StackFiles.ReaddressingFilesCommutes` | apps/stack/src/generate-env.ts:386-403 | Re-addressing a written file leaves, byte for byte, the file generation would have written for the other addressing |
| `Doctor.Diagnose` | apps/stack/src/doctor.ts:86-359 | All numbered checks in order |
| `Doctor.CheckGraph` | apps/stack/src/doctor.ts:188-213 | Check 3 |
| `Doctor.CheckDirections` | apps/stack/src/doctor.ts:222-238 | Check 4 |
| `Doctor.CheckShared` | apps/stack/src/doctor.ts:255-275 | Check 4b, with its map from value to slots |
| `DoctorLaws.SharedIffUnshared` | apps/stack/src/doctor.ts:240-275 | Check 4b is silent if and only if no two held edges share a value |
| `DoctorLaws.DoctorDecidesProvisioning` | apps/stack/src/doctor.ts:185-275 | On any well-formed graph: no credential finding if and only if some injective assignment of non-empty values to the held edges fills their every slot, and no service calls with what fills an unheld slot of its own |
| `DoctorLaws.DirectionsOfUnheld` | apps/stack/src/doctor.ts:215-275 | When the edge and sharing checks are silent, the direction check is silent if and only if no service calls with what fills an unheld slot of its own |
| `DoctorLaws.DirectionsAreImplied` | apps/stack/src/doctor.ts:215-275 | Check 4 can only speak when 3 or 4b does |
| `DoctorLaws.NoSlotHoldsAnotherKey` | apps/stack/src/doctor.ts:240-254 | After a silent run no slot of a held edge holds another held edge's key |
| `DoctorLaws.SilentPreflight` | apps/stack/src/doctor.ts:86-359 | No finding at all if and only if the file is addressed for its reader, stays local, is encrypted where it must be, is fully equipped and provisions the graph |
| `DoctorReports.FindingsAreTheTruth` | apps/stack/src/doctor.ts:86-359 | A finding is reported if and only if what it says is true: its severity, its code, and the very keys it names, for all fifteen codes |
| `DoctorReports.SeverityOf` | apps/stack/src/doctor.ts:86-359 | Only a stubbed adapter and a provider's key are warnings; everything else is an error |
| `DoctorReports.RefusesIff` | apps/stack/src/doctor-cli.ts:36-47 | The stack is refused if and only if the file is not addressed for its reader, may leave the machine, is not encrypted where it must be, does not provision the graph, or lacks a database or the brokers |
| `DoctorReports.LooksRealIsText` | apps/stack/src/doctor.ts:40-55 | Credentials look real if and only if the id is a known prefix and twelve or more capitals or digits, or a secret of forty or more stands beside another id than the dummy one |
| `DoctorReports.OverrideIsText` | apps/stack/src/doctor.ts:127-140 | An override is the endpoint's name, an underscore and a further character that ends no line |
| `DoctorReports.ProviderIsText` | apps/stack/src/doctor.ts:318-345 | A provider's key starts with `anthropic_` in any mixture of cases |
| `ServiceEnv.ServiceProcessEnv` | apps/stack/src/service-env.ts:73-175 | The assignments in order, the first missing key ending them |
| `ProcessVariables.ProcessAgreesWithCompose` | docker-compose.stack.yml:382-755 | For every file and well-formed graph a process holds, variable by variable, what its compose block maps: the file's own or shared key of the same name, mode, port, peers' addresses and credentials; and nothing else |
| `ProcessVariables.StartsIffComplete` | apps/stack/src/service-env.ts:66-72 | A service starts if and only if the file has every key it needs, and fails by the name of one it lacks; an inbound slot is not needed |
| `StackPipeline.GeneratedFilePasses` | apps/stack/src/doctor.ts:86-359 | The parsed file of every generated environment passes the whole preflight |
| `StackPipeline.EveryServiceStarts` | apps/stack/src/service-env.ts:64-175 | From that file no service's environment throws |
| `StackPipeline.OnlyOwnKeys` | apps/stack/src/service-env.ts:20-30 | No process variable is filled from another service's key |
| `StackPipeline.ProcessGetsSlot` | apps/stack/src/service-env.ts:106-123 | A process gets for each of its edges what the file has in its slot |
| `StackPipeline.BothEndsAgree` | apps/stack/src/doctor.ts:185-213 | In any file that passes check 3, hand-edited or not, holder and callee start with the same credential |
| `StackPipeline.BothEndsGetTheSecret` | apps/stack/src/generate-env.ts:101-118 | End to end, both start with the one secret minted for the edge |
| `StackPipeline.SupervisorAgreesWithCompose` | apps/stack/src/service-env.ts:177-192 | A service is started if and only if its generated compose profile is an ordinary one |
| `Router.AssertRoutesWellFormed` | apps/operator-web/src/server.ts:200-223 | Accepts a table if and only if every row is reachable, whole-segmented and captures what it rewrites; otherwise names a genuine defect of the first bad row |
| `Router.CheckRow` | apps/operator-web/src/server.ts:201-222 | The three checks of one row |
| `Router.MatchRoute` | apps/operator-web/src/server.ts:238-257 | The first matching row, or none if no row matches |
| `Router.MatchesIffFilledIn` | apps/operator-web/src/server.ts:238-257 | A route matches exactly the paths that are its own with something non-empty in place of each parameter, for its verb only |
| `Router.RewritePath` | apps/operator-web/src/server.ts:270-282 | The capture loop and the substitution |
| `Router.RewriteIsSegmentwise` | apps/operator-web/src/server.ts:259-282 | For an accepted row and a path it matches, the result splits into exactly the template's segments: its literals and, where it names a parameter, an unchanged non-empty received segment |
| `RouteTable.LoadTable` | apps/operator-web/src/server.ts:225 | The declared table is accepted |
| `RouteTable.AtMostOneRow` | apps/operator-web/src/server.ts:67-173 | At most one of its rows matches any verb and path |
| `Cookies.ParseCookies` | apps/bff/src/cookies.ts:17-43 | The parsing loop: first occurrence wins, quotes stripped, undecodable values kept |
| `Cookies.SerializeSessionCookie` | apps/bff/src/cookies.ts:45-51 | The header reads back as the one cookie, followed by exactly `Path=/`, `HttpOnly`, `SameSite=Strict`, and `Secure` if and only if asked |
| `PercentEncoding.DecodeEncode` | apps/bff/src/cookies.ts:17-50 | `decodeURIComponent` undoes `encodeURIComponent` on every string, through all four UTF-8 lengths |
| `PercentEncoding.EncodedSafe` | apps/bff/src/cookies.ts:50 | Encoded text has no separator, quote or space |
| `PercentSpelling.DecodeIffSpelled` | apps/bff/src/cookies.ts:37-41 | A text decodes if and only if each character is spelled as itself or as the escapes of its UTF-8 bytes in either case, and then to what it spells; overlong, truncated and surrogate forms are refused |
| `PercentSpelling.EncodeIs` | apps/bff/src/cookies.ts:50 | Encoding leaves letters, digits and nine marks, and makes every other character the upper-case escapes of its UTF-8 bytes |
| `Cookies.EncodedValueSurvives` | apps/bff/src/cookies.ts:28-40 | Trimming, quote stripping and the decode fallback never fire on an encoded value |
| `Cookies.CookieRoundTrip` | apps/bff/src/cookies.ts:17-50 | Parsing a header of encoded cookies gives exactly those cookies, for all proper distinct names and all values |
| `Cookies.FirstOccurrenceWins` | apps/bff/src/cookies.ts:22-31 | In any header a name has the value of the first part that spells it |
| `Cookies.QuotedValue` | apps/bff/src/cookies.ts:34-36 | A value in double quotes is read as what is between them |
| `CookieParts.PartSays` | apps/bff/src/cookies.ts:22-41 | A part spells a cookie if and only if it is `name=value` at its first equals sign, trimmed, unquoted, and decoded where it can be |
| `CookieParts.HeaderSays` | apps/bff/src/cookies.ts:17-43 | A header gives a name a value if and only if the name is not empty and the first part that spells it spells that value |
| `Cookies.SessionCookieRoundTrip` | apps/bff/src/cookies.ts:45-51 | What the writer sets comes back as the same value |
| `Session.Extension.Resume` | apps/vault-extension/src/session.ts:140-187 | One stretch of `withSession` between two awaits: the refusal that leads to a refresh, the rotation that is stored and retried, the shape check, and every way to end |
| `Session.Extension.Finish` | apps/vault-extension/src/popup.ts:73-174 | What the callers do with the result and the session handed back |
| `SessionLaws.AtMostTwoCalls` | apps/vault-extension/src/session.ts:136-187 | A run posts one call, then at most one refresh and one retry |
| `SessionLaws.StoredIsCurrentOrPrevious` | apps/vault-extension/src/session.ts:113-123 | In every interleaving the stored refresh token is the session's current one or the one before it |
| `SessionLaws.BehindIffInTransit` | apps/vault-extension/src/session.ts:113-123 | The stored tokens are one rotation behind identity's if and only if the newest pair is on its way or was lost: its reply lost or incomplete, or its popup closed; never both |
| `SessionLaws.SessionEndsIff` | apps/services/identity/src/auth.service.ts:350-387 | In every interleaving a live session ends exactly when it is revoked, a logout succeeds, or a refresh arrives out of turn: on the newest tokens the device has while identity has issued newer ones, or on older tokens |
| `SessionResults.ResultTellsWhatHappened` | apps/vault-extension/src/session.ts:148-187 | In every interleaving an ended run says what happened: an outage if and only if its request went unanswered, UNAUTHENTICATED if and only if identity refused its refresh or retry, UNKNOWN on an incomplete body |
| `SessionResults.RefreshOnlyAfterRefusal` | apps/vault-extension/src/session.ts:144-149 | A refresh is made only after identity refused the access token, a retry only with a complete pair |
| `SessionResults.PairingAfter` | apps/vault-extension/src/popup.ts:73-174 | A call under way never brings a session back to a popup that has none; session and Secret Key are given up together |
| `SessionRefusals.RefusedOverLiveIff` | apps/services/identity/src/auth.service.ts:350-387 | In every interleaving: identity refuses a refresh or retry and leaves the session alive if and only if the retry's fresh token has run out, or two rotations, counting one on its way or lost, were made since the run took its tokens |
| `SessionRefusals.UnauthenticatedMeans` | apps/vault-extension/src/session.ts:148-187 | In every interleaving: a run told UNAUTHENTICATED was told so over a session that is alive if and only if its retry's fresh token had run out, or two rotations had overtaken its refresh, when identity answered, and nothing has ended the session since |
| `SessionRefusals.UnpairingMeansGone` | apps/vault-extension/src/popup.ts:73-98 | In every interleaving the popup un-pairs on its status read over a session that is alive if and only if the token it had just been issued ran out before the retry and nothing has ended the session since |
| `SessionRefusals.ForgottenAliveIff` | apps/vault-extension/src/session.ts:189-220 | In every interleaving the device has given up its Secret Key while its session is alive if and only if a status read's or disconnect's retry ran out, or a disconnect was overtaken by two rotations, and nothing has ended the session since |
| `SessionSerial.SerialUnauthenticatedMeansGone` | apps/vault-extension/src/session.ts:148-187 | With calls made one at a time no run is overtaken: UNAUTHENTICATED was told over a session that is alive if and only if the token just issued ran out before the retry |
| `SessionSerial.SerialRefreshRevokesIff` | apps/services/identity/src/auth.service.ts:350-387 | With calls made one at a time the popup's next refresh revokes the session if and only if the newest pair never reached the popup: lost, or dropped by a failed disconnect |
| `SessionSerial.ForgottenMeansGone` | apps/vault-extension/src/session.ts:189-220 | With calls made one at a time the Secret Key is forgotten over a session that is alive if and only if the newest token ran out before the retry of a status read or disconnect |
| `SessionRuns.LostReplyRevokes` | apps/services/identity/src/auth.service.ts:371-386 | A run: a rotation's reply is lost, and the next refresh revokes the session |
| `SessionRuns.OverlapRevokes` | apps/vault-extension/src/popup.ts:146-154 | A run: two calls on one session, nothing lost, refreshes that do not even overlap; the later one revokes it |
| `SessionRuns.OverlapMisreads` | apps/vault-extension/src/popup.ts:146-154 | A run: a call overtaken by two rotations is told UNAUTHENTICATED over a session that lives |
| `SessionRuns.ClosingRevokes` | apps/services/identity/src/auth.service.ts:371-386 | A run: the popup is closed during its refresh, and the next popup's status read revokes the session and forgets it |
| `SessionRuns.LateRefreshRevokes` | apps/services/identity/src/auth.service.ts:371-386 | A run of calls made one at a time, with nothing lost: the refresh of a closed popup arrives after the next popup's and revokes the session |

## Left out

- The cryptography (SRP, 2SKD, AEAD): key material is present or absent, a blob opens for the item and version it was
  sealed for.
- `unlock`'s network and worker failures are one failure each; which half of a secret was wrong is not modelled.
- Payload contents of summaries, matches and credentials, and the per-row decryption loops that build them.
- Rotation of the vault's keyset, vault reset and emergency access in the write protocol.
- URL parsing (`new URL`), punycode detection, and case mapping beyond ASCII.
- The 10,239 concrete public-suffix rules: the theorems hold for every list of their shape.
- `isLocalEndpoint`'s host set: any predicate that accepts the four endpoints the generator writes will do.
- `scrubbedBaseEnv`, `bffProcessEnv`, `vaultWebProcessEnv` and `operatorWebProcessEnv`: straight-line members that would
  restate their bodies.
- The `kekAlias` texts and `MIGRATION_ORDER`, which no modelled code reads.
- The texts of findings and refusals, and `summarize`, which formats them.
- `setSessionCookies` and `clearSessionCookies`: two calls each of the modelled writer.
- `pair`, and the shape check of `loadSession` on storage, which is `ToSession` again.
- HTTP, the DOM, browser storage, process spawning, configuration loaders and all command lines.
- ServiceEnv.ServiceProcessEnv: the straight-line assignments of one service are written as tables that one loop
  assigns in order, so the model fixes the order of assignments but not the shape of the `switch`.
- Readdressing.ReaddressingCommutes: assumes a well-formed graph, because otherwise two keys of the file may coincide.
- SessionSerial.SerialUnauthenticatedMeansGone: is about calls made one at a time, because overlapping calls can be told
  UNAUTHENTICATED over a live session (`SessionRuns.OverlapMisreads`); `SessionRefusals.UnauthenticatedMeans` is the
  statement for every interleaving.
- SessionLaws.SessionEndsIff: identity looks a refresh token up and rotates it in two statements; two refreshes that meet
  between them are not modelled.
