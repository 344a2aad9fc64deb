# A verified model of signerd and its client

signerd is a daemon that signs Windows installers and executables with one hardware token; a client
posts files to it. This project models five connected parts of the program and proves what they
promise.

* **The key cache** (`KeySet`, `KeyCache*`, `Verifier`). Any number of `Verifier.key` calls interleave
  at the level of single lock operations and field writes: the reader/writer lock with its announced
  writer, the refresh lock, the double-checked freshness, the cooldown, the HTTP load outside the data
  lock, and a clock that moves at any time. The theorems are about every run: each returned key was in
  a fresh cache during the call, each refusal is justified, no load starts within a TTL of a stored
  set or within the cooldown of the last attempt, loads never overlap, and no call gets stuck.
  `KeySet` models how a JWKS becomes a key map, down to the base64url digits, and `KeySetFormat` says
  the same from the outside.
* **The request handlers** (`TokenProtocol`, `TokenInvariant`, `TokenTheorems`, `Server`). Unboundedly
  many `/health` and `/v1/sign` handlers share a one-slot token channel, a two-slot upload channel and
  the health cache; contexts end and backends panic at any step. Slots are conserved, the backend runs
  alone, every reply can be traced to what it claims, and statuses tell how often a file was signed.
* **The file classifier** (`Classifier`), against a declarative description of PE images and of
  compound files ([MS-CFB] sections 2.1, 2.2 and 2.6.1), and a builder of such files.
* **Publication by rename** (`Disk`, `Backends`, `WriteAtomic`, `SignFile`, `TokenHealth`). A disk
  whose every operation may fail records each state it has been in and each failure. Both backends,
  though they nest the PIN file and the staging file in opposite orders, meet one contract: what is
  published, what a crash can expose, what may be left behind and why, and that with no failing
  operation the tool alone decides. The client's own publication meets it too.
* **The retry loop against the server** (`ClientRetry`), and **start-up** (`DaemonConfig`).

Shape of the model. A concurrent protocol is a transition function `Next` over a state value, and its
theorems quantify over all runs (`IsRun`). Beside it stand the classes `Verifier` and `Server`, whose
methods update the same fields step by step as the code does; their contracts give the exact outcome.
What a call answers, what a handler replies, and what a method or a file format amounts to, is also
stated in plain terms, with the numbers written out and without the functions that compute it:
`KeyCacheAnswers` and `HandlerAnswers` over every run (each answer follows from what the own steps of
the call saw), `KeySays`, `HealthSays` and `SignSays` for the methods, `SectorLayout` and `KeySetFormat`
for the formats.
`SoloCall`, `SoloHealth` and `SoloSign` show that the machine, when one call runs alone, can end with
every outcome that the contracts allow, and `LoneCall`, `LoneHealth` and `LoneSign` that it can end
with no other. Zero times of the code are `None`. Times are integers in nanoseconds. What an HTTP round trip, a
tool, a disk or a peer does is an arbitrary event, function or choice.

Results that go against what the source says or what one might hope:

* The comment at `oidc/oidc.go:176` says that keys are never trusted past the TTL. The code re-reads
  the map after a refresh, and returns a hit after a test of freshness, without looking at the clock
  again, so a slow call can return an older key. `Deadline`, a function of the state in which the call
  begins (cache, clock, and a load that is under way) and of the key ID, is exact at every reachable
  state. A call that returns before it returns a key less than a TTL old, in every run
  (`YoungBeforeDeadline`); and at every instant from the deadline on there is a run, whatever the other
  calls were doing, whose step at that very instant is the return of a key when every key set ever
  stored is past its TTL (`OldAfterDeadline`). `DeadlineIsExact` is the equivalence. Without any
  condition, a returned key was fresh at an instant inside the call (`ReturnedKeyWasFresh`).
* The verdict on a compound file whose directory cannot be located can change when bytes are
  appended; `AppendMayUnmask` says exactly when, and `BlindVerdictCanChange` gives a file.
* One client call can have a file signed more than once, but only once more for each reply that the
  transport loses: `OneCallSignsOnce`, and `LostRepliesSignAgain` for the bound being reached.
* The two backends keep one contract as long as the PIN file does not happen to take the name of the
  output. That is possible exactly for an output that does not exist and has a name that can be drawn
  for a PIN file, with a PIN configured (`MayCollide`). `OSSLSigncode.Sign` then reports success and
  removes its own output: when nothing fails, its contract fixes the whole disk, which is as before if
  the two names agree and otherwise holds the signed file, and a reliable disk with free names has no
  fault (`OutputIsLost` is a witness: one such disk for every output that meets `MayCollide`).
  `Jsign.Sign`, with the opposite nesting, still ends with the signed file.
* Validation of the configuration is exact (`ValidationIsExact`) except that it also refuses an
  audience of white space, which `Verify` alone would let through; `Sound` says so.

## Model

| member | source | states |
|---|---|---|
| KeyCacheInvariant.NextKeepsInv | oidc/oidc.go:177-255 | every step of every call, load or clock keeps lock ownership, the per-call knowledge about the cache and the logs of loads and stores consistent |
| KeyCacheTheorems.RunInv | oidc/oidc.go:177-255 | the invariant holds in every state of every run |
| KeyCacheTheorems.ReadersSeeWholeSets | oidc/oidc.go:178-181 | no read section overlaps a half-done store |
| KeyCacheTheorems.TrustHasInstant | oidc/oidc.go:177-255 | a call that has decided to trust the cache had an instant at which the cache was fresh with the present keys |
| KeyCacheTheorems.ReturnedKeyWasFresh | oidc/oidc.go:177-213 | in every interleaving, a returned key stood under the requested ID in a fresh cache at an instant between invocation and return, on all three paths |
| KeyCacheTheorems.RememberedWasLookedUp | oidc/oidc.go:178-206 | what a call remembers of the map is a lookup in a whole key set at an instant inside the call |
| KeyCacheTheorems.StaleWasSeen | oidc/oidc.go:180-191 | a call goes to refresh only after an instant at which the cache was stale |
| KeyCacheTheorems.RefusalIsJustified | oidc/oidc.go:187-210 | an unknown ID was missing from a whole key set, and stale keys were present in one, at an instant inside the call; stale and load errors come only after a stale instant |
| KeyCacheAnswers.AnswerIsDecided | oidc/oidc.go:177-255 | in every run each answer is decided by what the own steps of the call saw, in order: a fresh first read answers by its lookup; otherwise, under the refresh lock, a fresh cache or a stored load of its own lead to a second lookup after that, which answers, and an attempt in the last minute or a failed load, recorded as an attempt, give stale keys for an ID the first lookup found, and else an unknown ID or the error of the load |
| KeyCacheAnswers.FreshRecheckDecides | oidc/oidc.go:226-233 | a call that finds the cache fresh under the refresh lock answers by a lookup in a whole key set after that |
| KeyCacheRates.FreshWindow | oidc/oidc.go:215-255 | from a store at f until f + TTL nothing changes: same keys, no load start, no store |
| KeyCacheRates.FreshWindowCall | oidc/oidc.go:177-189 | a call whose freshness test falls in that window answers by lookup in that set and never refreshes, whatever the others ask for |
| KeyCacheRates.FreshKeysAreLatestLoad | oidc/oidc.go:244-252 | at any fresh instant the keys are wholly those of the latest successful load |
| KeyCacheRates.AnswersComeFromRecentLoads | oidc/oidc.go:177-213 | a call that begins after a state answers only from the load that was the latest then or from later ones, and that load was less than a TTL old when the call began or came later: an ID absent from them is never accepted again |
| KeyCacheRates.FailedLoadKeepsKeys | oidc/oidc.go:242-254 | only a successful load, holding both locks alone, ever changes the keys or the fetch time |
| KeyCacheRates.LoadStartIsDue | oidc/oidc.go:226-242 | a load starts at least a TTL after the last store and at least the cooldown after the last attempt and the last start |
| KeyCacheRates.LoadRate | oidc/oidc.go:34-36 | a window of length w holds at most w/cooldown + 1 load starts, for any callers and key IDs |
| KeyCacheRates.LoadsAreAlone | oidc/oidc.go:222-244 | at most one load is in flight, and the loading call does not hold the data lock |
| KeyCacheRates.NoDeadlock | oidc/oidc.go:177-255 | while any call is unfinished some unfinished call can move, loads returning |
| KeyCacheRates.CallsAreBounded | oidc/oidc.go:177-255 | a call takes at most 21 steps of its own in any run |
| Verifier.Verifier.Refresh | oidc/oidc.go:222-255 | the result and the whole new cache of an undisturbed refresh, for every load outcome |
| Verifier.Verifier.Key | oidc/oidc.go:177-213 | the answer and the whole new cache of an undisturbed call |
| Verifier.SoloCall | oidc/oidc.go:177-255 | for all clock readings and every load, the interleaved machine, when one call runs alone, can end with the outcome that the method is specified to have |
| Verifier.LoneCall | oidc/oidc.go:177-255 | in every run from any state in which only one call and the clock move, that call returns, and leaves in the cache, what the method is specified to give for some readings inside the call and some load |
| KeyCacheAge.NextAdvances | oidc/oidc.go:177-255 | no event brings forward the first instant at which a key set with a given ID can be stored, and none stores the ID before it |
| KeyCacheAge.LaterStores | oidc/oidc.go:222-254 | in every run, no key set that holds an ID is stored before the instant that the cache and a load under way allow |
| KeyCacheAge.Drain | oidc/oidc.go:177-255 | from every reachable state all other calls can finish without time passing and without moving the deadline |
| KeyCacheAge.YoungBeforeDeadline | oidc/oidc.go:176-213 | in every run, a call that returns before the deadline of the state in which it began returns a key from a load less than a TTL old at the return |
| KeyCacheAge.OldAfterDeadline | oidc/oidc.go:178-213 | from every reachable state, at any instant from the deadline on, the very step that returns a key can happen when every stored set is past its TTL |
| KeyCacheAge.DeadlineIsExact | oidc/oidc.go:176-213 | at every reachable state: all keys that a call for the ID can return at an instant are less than a TTL old then, if and only if that instant is before the deadline |
| KeyCacheAge.AnswerMayOutliveTheTTL | oidc/oidc.go:204-212 | an instance: from the first state on, a call whose return, with a key, comes a full TTL after its load |
| Verifier.OutcomesSay | oidc/oidc.go:177-255 | the outcome functions say what KeySays and RefreshSays say in plain terms: ten minutes of trust, one minute of cooldown, and which error follows from what |
| KeySet.DecodableStrings | oidc/oidc.go:298-306 | which strings base64url decoding accepts: the alphabet, line breaks skipped, and no single left-over digit |
| KeySet.Base64RoundTrip | oidc/oidc.go:298-303 | decoding the unpadded base64url text of any bytes gives the bytes (RFC 4648 section 5) |
| KeySet.NumberRoundTrip | oidc/oidc.go:309-310 | big-endian octets of a number read back as the number (RFC 7518 section 6.3.1) |
| KeySet.LoadKeys | oidc/oidc.go:291-314 | the loop fails with the first relevant entry that does not decode, and otherwise yields the map of the relevant entries, later duplicates winning |
| KeySet.LoadsIsUnique | oidc/oidc.go:291-314 | that specification leaves exactly one result for each key list |
| KeySet.PublishedKeyIsReadBack | oidc/oidc.go:298-311 | a key published as RFC 7518 says (zero as one zero octet) is read back with its modulus, and with its exponent exactly when that fits int64 |
| KeySet.PublishedSetIsLoaded | oidc/oidc.go:291-314 | a published key set is loaded exactly as published, in whatever order and however often its keys are listed |
| KeySetFormat.LettersAreUsed | oidc/oidc.go:298-303 | the 64 letters by ASCII code, and no others (RFC 4648 section 5) |
| KeySetFormat.LineBreaksAreSkipped | oidc/oidc.go:298-303 | a line break anywhere in the text makes no difference |
| KeySetFormat.FourLetters | oidc/oidc.go:298-303 | four letters decode to three bytes, in front of what the rest decodes to |
| KeySetFormat.FewLetters | oidc/oidc.go:298-303 | two or three letters at the end decode to one or two bytes, their spare bits dropped; one letter does not decode |
| KeySetFormat.NumberReads | oidc/oidc.go:309 | octets are read from the left in base 256 |
| KeySetFormat.SixtyFourBits | oidc/oidc.go:310 | an exponent is the signed value of the low 64 bits |
| KeySetFormat.ErrorsNameTheFirst | oidc/oidc.go:293-306 | loading fails exactly when some RSA entry with an ID does not decode, and names the first, with the part that failed |
| KeySetFormat.MapHoldsTheLast | oidc/oidc.go:293-312 | the map holds exactly the IDs of the RSA entries, each with the numbers of its last entry; others are skipped |
| TokenInvariant.NextKeepsInv | server/server.go:213-521 | every step of every handler, cancellation, panic or tick keeps the channel counts, the store log and each handler's record |
| TokenInvariant.RunInv | server/server.go:213-521 | the invariant holds in every state of every run |
| TokenTheorems.BackendIsExclusive | server/server.go:502-515 | at most one Sign or Health call of the backend executes at a time |
| TokenTheorems.NoSlotIsLost | server/server.go:300-307 | the token and upload channels hold exactly one item for each handler inside, at most one and two, and are empty when all handlers are done, panics and cancellations included |
| TokenTheorems.RetainedBytesAreBounded | server/server.go:398-417 | all requests together keep at most 2 * MaxBody bytes of uploads on disk |
| TokenTheorems.OperationHadLiveContext | server/server.go:510-515 | no operation is under way whose context was not live at the test made while holding the token |
| TokenTheorems.ReplyWasSettled | server/server.go:213-248 | each /health reply was settled at an instant inside the call: a live cache hit, an own probe, or an ended context |
| TokenTheorems.ResultCameFromBackend | server/server.go:230-241 | a probe result is what the backend returned to that handler |
| TokenTheorems.CacheWasStored | server/server.go:275-285 | a cache entry is a result that a handler stored |
| TokenTheorems.StoredProbeWasLive | server/server.go:237-239 | a result is stored only by a handler whose context had not ended when checked |
| TokenTheorems.CachedReplyIsGrounded | server/server.go:260-273 | a cached reply is a backend result, stored by a live handler, that was within its TTL at an instant inside the call |
| TokenTheorems.OtherRepliesAreGrounded | server/server.go:225-247 | any other /health reply is the handler's own backend result, or its context had ended |
| TokenTheorems.ProbeIsDue | server/server.go:225-232 | a probe runs only a full TTL after the last stored result |
| TokenTheorems.StoresAreSpaced | server/server.go:237-239 | stored results are at least a TTL apart, over any number of handlers and cancellations |
| TokenTheorems.StatusTellsSignCount | server/server.go:289-352 | each request is signed at most once; the only retryable status is a 503 to a request that was never signed, and a 200 means signed exactly once |
| TokenTheorems.NoDeadlock | server/server.go:289-521 | while a handler is unfinished, some unfinished handler can move once its backend, peer or disk responds |
| TokenTheorems.MeasureFalls | server/server.go:213-453 | every event of a handler makes a measure fall |
| TokenTheorems.HandlersAreBounded | server/server.go:213-453 | in every run a handler has at most 11 + MaxBody events of its own (the bytes of an upload may arrive one by one), whatever the others do |
| HandlerAnswers.SignReplyIsDecided | server/server.go:289-352 | in every run each status of /v1/sign, and the number of signatures, is decided by what came before: 401 unauthenticated; 503 with two other requests holding slots; 413 when a piece of the body made it longer than MaxBody; 415, 400 or 500 by the reason of the refusal; 500 for an ended context, a failed backend or a failed response; 200 for one signature with a live context and a response that was sent |
| HandlerAnswers.TwoUploadsAtATime | server/server.go:300-307 | a request for a slot is turned away if and only if two requests hold one |
| HandlerAnswers.HealthReplyIsDecided | server/server.go:213-248 | in every run each reply of /health is decided by what came before: a live result at the first or second look is repeated, an ended context is reported, and otherwise the reply is what the backend returned, stored unless the context had ended when tested |
| Server.OutcomesSay | server/server.go:213-352 | the outcome functions say what HealthSays and SignSays say in plain terms |
| Server.Server.HandleHealth | server/server.go:213-248 | the reply and the cache after an undisturbed /health |
| Server.Server.HandleSign | server/server.go:289-324 | the reply and the number of Sign calls of an undisturbed /v1/sign, both channels as before |
| Server.SoloHealth | server/server.go:213-248 | for all readings and every behaviour of its peer and backend, a /health handler alone in the machine can end as the method is specified |
| Server.SoloSign | server/server.go:289-324 | the same for a /v1/sign handler |
| ServerAlone.LoneHealth | server/server.go:213-248 | in every run in which only one /health handler and the clock move, its reply and the cache are what the method is specified to give, and both channels are as before |
| ServerAlone.LoneSign | server/server.go:289-324 | in every run in which only one /v1/sign handler and the clock move, its reply and its calls of Signer.Sign are what the method is specified to give; the cache and both channels are as before |
| Classifier.DirOffsetFitsInt64 | server/server.go:670 | the directory offset stays below 2^45 |
| Classifier.PEIsRecognized | server/server.go:574-606 | the PE test equals the declarative description, for every byte string |
| Classifier.InstallerIds | server/server.go:687-709 | the class id test accepts exactly four 16-byte ids |
| Classifier.BuiltCLSIDIsFound | server/server.go:636-683 | in every well-formed compound layout the class id that was built in is found |
| Classifier.BuiltKind | server/server.go:556-683 | a built compound file is an installer exactly when its class id is one of the four |
| Classifier.EveryCompoundIsBuilt | server/server.go:649-682 | every byte string with the magic and a located directory behind the header is such a layout |
| Classifier.KindOfAnyFile | server/server.go:556-683 | the verdict on any byte string: a PE image, or the magic with an installer id or with no directory to be found |
| SectorLayout.EveryFileIsMadeOf | server/server.go:636-683 | every file is a row of sectors of any size, the last cut short |
| SectorLayout.SectorLies | server/server.go:670 | where a sector lies, from the lengths of those before it |
| SectorLayout.KindOfCompoundFile | server/server.go:618-709 | for every file with the compound magic, cut into sectors of the size that the header gives: if a whole directory entry heads the sector behind the header's and the named number of others, its bytes 80 to 95 decide; in all other cases the file passes as ".msi" |
| SectorLayout.KindOfOtherFile | server/server.go:556-606 | every other file is ".exe" or refused, by "MZ" and the place that bytes 60 to 63 spell |
| Classifier.AppendKeepsKind | server/server.go:574-683 | appending any bytes keeps the verdict on a PE image and on a compound file with a located directory |
| Classifier.AppendMayUnmask | server/server.go:612-631 | exactly when an append changes the verdict on a signable file: it was given blindly and the longer file shows another class id |
| Classifier.FakeSigningKeepsKind | signer/fake.go:66-99 | fake-signed output is classified as its input, blind verdicts aside |
| Classifier.BlindVerdictCanChange | server/server.go:612-617 | a file whose blind verdict changes when the marker is appended |
| Disk.NothingElseChanged | backends/backends.go:104-148 | for any replacement that meets the contract: with no stuck temporary file the whole disk is as before but for the published output |
| Disk.EveryInstantIsWhole | backends/backends.go:104-148 | at every recorded instant each earlier file is whole, and the output is old or the published file |
| Disk.Disk.Rename | backends/backends.go:140 | one step moves the file over the target; a failure changes nothing |
| Disk.Disk.RunTool | backends/osslsigncode.go:136 | a tool may write any sequence of contents to its one file before it stops |
| Backends.WritePINFile | backends/backends.go:203-225 | the PIN stands alone in a new file of mode 0600, no file for an empty PIN, and a failure leaves none unless its removal fails |
| Backends.OpenStaging | backends/backends.go:107-125 | an empty staging file beside the output, or none left unless its removal fails |
| Backends.CloseStaging | backends/backends.go:127-147 | the staging file becomes the output, or is removed and nothing is published |
| Backends.Renamed | backends/backends.go:140-147 | the rename of the staging file publishes what the tool left and touches nothing else |
| Backends.PublishedInside | backends/osslsigncode.go:103-143 | publishing between the making and the removal of a PIN file meets the contract |
| Backends.ConfinedInside | backends/osslsigncode.go:103-143 | whatever name the PIN file has, only temporary paths and the output are ever touched, and the other temporary paths are free again unless a removal failed |
| Backends.PublishedAlone | backends/backends.go:107-148 | publishing with every other temporary file already gone meets the contract |
| Backends.CopyFile | backends/backends.go:75-102 | success leaves the content of the input in the staging file, with the mode of the staging file |
| Backends.OSSLSigncode.Sign | backends/osslsigncode.go:89-144 | a missing request, one file for input and output, an empty module and an empty certificate, in this order, each give their error before anything is touched; then for every failure pattern and tool: success means the output is what the tool left, failure leaves all as before, no other path than the two drawn names and the output is ever touched, and temporary files go unless their removal fails; with no failing operation (and none fails on a reliable disk with free names) the result is decided by the tool alone and the whole disk is fixed: the output holds what the tool left, or all is as before, and all is as before even after a success if the PIN file drew the output's name; the tool finds no staging file, the input, and the PIN |
| Backends.Jsign.Sign | backends/jsign.go:96-149 | the same contract, without a module, with the nesting reversed, the disk fixed without that exception; after a success the output holds what the tool left whatever name the PIN file drew; the tool finds a copy of the input in staging |
| WriteAtomic.OutputMode | client.go:272-285 | the mode of the replaced file, else of the input, else 0600 |
| WriteAtomic.WriteAtomic | client.go:230-268 | nil exactly when the signed bytes were published, and always when no operation fails, then with exactly that mode; at every instant the output is complete, old or new; the temporary file stays only if its removal fails |
| SignFile.SignFile | client.go:209-225 | nil exactly when bytes that the service delivered for the input's content were published, at the output path if one is given, when the input stays untouched at every instant, and else in place; a failure leaves every file as it was |
| TokenHealth.ListsCertificates | backends/backends.go:174-188 | whether a command asks for certificate objects |
| TokenHealth.ContainsMeans | backends/backends.go:167 | the mark is found exactly when the text has it somewhere |
| TokenHealth.RunHealth | backends/backends.go:153-172 | healthy exactly when there is a command, it succeeds, prints something, and shows a certificate if it asked for one |
| TokenHealth.DefaultProbeAsksForCertificates | backends/backends.go:193-199 | the default probe exists exactly when there is a module, and cannot pass without a certificate object |
| ClientRetry.Client.constructor | client.go:104-114 | counts and timeouts that New installs are usable, whatever was configured |
| ClientRetry.Client.ValidateHeaders | client.go:290-315 | names the first field that cannot be a header value |
| ClientRetry.Client.Sign | client.go:168-204 | for every sequence of outcomes: between 1 and max(Retries, 0) + 1 attempts, ended by the first success or failure not worth retrying, no success without a delivered file, and a full delay before each later attempt |
| ClientRetry.EndIsUnique | client.go:180-203 | that specification fixes the number of attempts and the reply |
| ClientRetry.OneCallSignsOnce | client.go:353-366 | against a signerd with any other load, one call signs at most once more than replies are lost; with none lost at most once, and a delivered file was signed |
| ClientRetry.LostRepliesSignAgain | client.go:361-364 | for every retry count there is a run in which each attempt signs, so the bound is reached |
| DaemonConfig.WrapIsExact | cmd/signerd/main.go:328-330 | the MiB limit passes exactly when its product in bytes does not wrap around int64 |
| DaemonConfig.GatesAreConfiguration | backends/osslsigncode.go:95-101 | the run-time gates of each backend depend on the configuration alone, and which part of it |
| DaemonConfig.DaemonCarriesItAll | cmd/signerd/main.go:148-177 | module, certificate, PIN, health command, audience, the whole allowlist and the limit of the configuration reach the daemon |
| DaemonConfig.ComplaintsComeInOrder | cmd/signerd/main.go:303-386 | which complaint comes first, with the path and kind of a bad file |
| DaemonConfig.ValidationIsExact | cmd/signerd/main.go:303-386 | validation accepts a configuration if and only if the daemon built from it has the exact body limit, no reachable gate, a probe, its files in place and a usable audience (the last two are the validator's own tests; the content is the wrap-around, the gates of both backends and the probe) |
| DaemonConfig.ValidatedGatesAreUnreachable | cmd/signerd/main.go:148-177 | after validation the signer is built, the body limit is positive and exact, no request meets a configuration gate, and an installed verifier has an audience and an allowlist |

## Left out

- HTTP, TLS, redirects, JSON, JWT parsing and RS256 verification: library code; an attempt, a load and a token check are outcomes. `Verify` beyond its first two tests and `checkJWKSURI` are therefore not modelled.
- The two GETs of `loadKeys`: a load is one event with any outcome, and `LoadKeys` starts from the decoded key list. A load that panics is not modelled.
- Building of tool arguments, `fallback`, `Exec`: the tool is an arbitrary function of the staging file, the input and the PIN file it finds, confined to the staging file.
- `safeExtension`, `sanitizeMetadata`, `isLoopback`, `bearerToken`, the `Fake` setters: facts about one short body each.
- Backends.OSSLSigncode.Sign: hard links and symbolic links are not modelled beyond the `aliased` flag for `os.SameFile`; no other process touches the disk.
- Backends.Jsign.Sign: the same remark.
- Backends.CopyFile: the copy is one read after the truncation and one write that may stop anywhere, not a stream of chunks.
- Disk.Disk.CreateTemp: the name that a call settles on is one draw; the attempts at taken names before it are not steps of their own. The temporary directory is `/tmp`.
- WriteAtomic.WriteAtomic: the mode rule is exact for runs in which no operation fails; when `os.Stat` fails on an existing file, one of the three candidate modes is published (`SomeMode`). Other processes do not touch the disk.
- TokenTheorems.RetainedBytesAreBounded: counts uploads, not the signed output beside them, and directory removal succeeds.
- TokenTheorems.NoDeadlock: some handler can always move, and each moves finitely often; fairness of the scheduler is not modelled.
- TokenTheorems.StatusTellsSignCount: a failure while the signed file is being sent is `ResponseEnds` with 500; what the peer sees of a cut body is a lost reply in `ClientRetry`.
- ClientRetry.OneCallSignsOnce: the client talks to signerd directly; a gateway between them that answers 502 or 504 itself counts as a lost reply.
- Server.Server.EnterToken: one handler alone: a wait for a taken slot ends with the context. The blocking wait among other handlers, and both branches of the select, are in the transition system.
- Server.Server.HandleHealth: one handler alone; interference is the subject of the transition system.
- DaemonConfig.ValidationIsExact: lower-casing and trimming are functions of the environment with `TrimSpace("") == ""` where needed; config decoding, environment variables and the warning about a missing PIN are left out.
- The Go `int` is taken as 64 bits wide. Shutdown, logging, deployment files and the command-line client are left out.
