# Payouts substitutor: a Dafny model

The payouts substitutor is a tezpay extension. It runs after payout candidates
have been generated and rewrites the recipient of any candidate whose payer
and payee are the same oven contract. An oven is a vault contract that holds
funds for a separate owner account. Its recipient becomes the owner named in
the oven's storage. The extension keeps one level-filtered audit line per
candidate. If any storage fetch, owner decode or log write fails, the whole
batch is aborted.

This project models the decision engine of `payouts-substitutor/main.go`:

- `loglevels.dfy` (`LogLevels`): the severity table, the threshold filter `shallLog`,
  and why the cycle banner always passes.
- `config.dfy` (`Config`): `parseConfig`. It probes the log file, defaults the
  level and the RPC node, and rejects a bad level or a bad URI.
- `storage.dfy` (`Storage`): decoded contract storage, `isOven`,
  `getOwnerAddress`, and the map coercion at the end of `getStorageMap`.
- `auditlog.dfy` (`AuditLog`): `openLog`, `writeLog`, `candidateLogMessage`,
  and the lines a sequence of records leaves in the file.
- `decimal.dfy` (`Decimal`): `%d` rendering of the cycle number and of the
  candidate count.
- `substitutor.dfy` (`Substitutor`): `requiresInvestigations`, the per-candidate
  decision, the candidate loop and the `mutateCandidates` hook.
- `properties.dfy` (`SubstitutorProperties`): batch-level properties. These are
  shape and order preservation, fail-closed abort, the exact audit trail,
  and idempotence.
- `scenarios.dfy` (`Scenarios`): three concrete batches.

External collaborators become parameters:

- The chain is a `Chain` value. It holds the decoded storage of an account or
  the reason it could not be fetched or decoded, plus a predicate saying
  whether a string parses as an address.
- The operating system is a `LogIo` value: whether the log file opens, and
  whether a given write succeeds.
- `Env.clientOk` stands for the construction of the RPC client.
- The log file is the sequence of writes appended during one batch. Each
  write is one record's message followed by a newline; the settings record
  spans two lines.
  `Disabled` means no file is configured.
- A batch run returns the lines written so far even when it fails. Lines
  appended before an abort stay in the file. A run that fails before the
  log is opened reports `Disabled`: nothing was written.

Addresses are kept in their Base58Check text form. An address is a contract
exactly when its text starts with `KT1`, so the kind is read off the
identifier. Comparing texts is the same as comparing the source's address
values.

Behaviour of the code that is easy to misread, which the model keeps:

- A non-empty `LOG_LEVEL` that is not in the table is rejected. It does not
  fall back to the default. Only an empty level defaults to `contracts`.
- A storage that decodes to something other than a record is not an error.
  The failed type assertion yields a nil map, and the candidate is logged as
  "not an oven."
- An `owner` field holding JSON `null` decodes to the empty string. This is
  what `json.Unmarshal` does with `null` and a string target. Whether the
  empty string parses as an address is left to `Chain.parses`; when it does
  not, the batch aborts like any other unparsable owner.
- `tezos.MustParseAddress` panics on an owner string that does not parse.
  The model treats that as an abort of the batch (`OwnerUnparsable`): no
  batch is returned.
- A candidate whose source is not a contract is logged "not a contract."
  even when its recipient is a contract.
- A redirected candidate is "already substituted" on a second pass, except
  when an oven names itself as owner. Such a candidate is redirected to
  itself again. Either way the batch does not change.

## Model

| member | source | states |
|---|---|---|
| LogLevels.ConfigurableLevels | payouts-substitutor/main.go:47-54 | the levels a configuration may select are exactly debug, verbose, contracts, redirects and errors |
| LogLevels.RankOrder | payouts-substitutor/main.go:47-54 | the ranks order debug < verbose < contracts < redirects < errors < system; an unknown level ranks 0; only `system` has the top rank |
| LogLevels.SystemAlwaysPasses | payouts-substitutor/main.go:116-118 | a system-level record passes the filter under every configured level, valid or not |
| LogLevels.ShallLogMonotone | payouts-substitutor/main.go:116-118 | a record that passes still passes at any higher-ranked level |
| LogLevels.ThresholdExtremes | payouts-substitutor/main.go:116-118 | under a valid level, debug records pass only at `debug`, and errors records always pass |
| Config.ParseConfig | payouts-substitutor/main.go:61-93 | an accepted configuration has a configurable level and a parseable node; the log file is kept; a non-empty level or node is kept as given |
| Config.AcceptsExactly | payouts-substitutor/main.go:67-90 | a configuration is accepted iff its log file (if any) opens, its defaulted level is configurable and its defaulted node parses; the result is the defaulted record |
| Config.Defaults | payouts-substitutor/main.go:74-85 | an empty level becomes `contracts` and an empty node becomes `https://eu.rpc.tez.capital` |
| Config.RejectsLevel | payouts-substitutor/main.go:78-81 | a non-empty level outside the table, or `system`, is rejected with that level named |
| Config.LogProbeFirst | payouts-substitutor/main.go:67-70 | a log file that cannot be opened fails the configuration before any other check |
| Decimal.FormatNat | payouts-substitutor/main.go:222 | the rendering is non-empty, all digits, with no leading zero |
| Decimal.FormatNatRoundTrip | payouts-substitutor/main.go:222 | the digits rendered for n denote n |
| Decimal.FormatIntRoundTrip | payouts-substitutor/main.go:279 | parsing the `%d` rendering of any integer gives it back |
| Storage.AsStorageMap | payouts-substitutor/main.go:158-165 | record-shaped storage gives its fields; any other shape gives the empty map, not an error |
| Storage.JsonToString | payouts-substitutor/main.go:172-181 | a value decodes into a string iff it is a string or null; a string decodes to itself and null to the empty string |
| Storage.GetOwnerAddress | payouts-substitutor/main.go:168-187 | no owner iff the `owner` key is absent; error iff `owner` holds a value other than a string or null; a string owner is returned as is, and a null owner as the empty string |
| Storage.OwnerRoundTrip | payouts-substitutor/main.go:144-187 | storing a string owner and reading it back returns it, and the oven marker is unaffected |
| Storage.OnlyMarkerFieldsMatter | payouts-substitutor/main.go:144-148 | two storages that agree on `ovenProxyContractAddress` presence and on `owner` classify alike |
| AuditLog.OpenLog | payouts-substitutor/main.go:95-106 | opening succeeds iff no file is configured or the file opens; an open log starts empty, and is open iff a path is set |
| AuditLog.WriteLog | payouts-substitutor/main.go:120-130 | the log only grows; it fails iff a file is open, the level passes and the write is refused; otherwise it gains exactly `message + "\n"` when open and passing, and nothing else |
| AuditLog.WriteEntries | payouts-substitutor/main.go:222-230 | consecutive writes only grow the log; they all succeed iff the log takes each passing record in turn, and then the log gains exactly the passing records, in order |
| AuditLog.AcceptsInTurnAppend | payouts-substitutor/main.go:222-282 | a concatenation of records is taken in turn iff its first part is, and then its second part is after the first part's lines |
| AuditLog.WriteEntriesComplete | payouts-substitutor/main.go:116-130 | consecutive writes to a log that takes every write (or to no log) fail nowhere and append exactly the records that pass the threshold, in order |
| AuditLog.FilterKeepsAll | payouts-substitutor/main.go:116-122 | when every record passes the threshold, every record is written, in order |
| AuditLog.CandidateLogMessage | payouts-substitutor/main.go:132-134 | a candidate line starts with the source, and the message follows after two separator characters |
| Substitutor.Categorize | payouts-substitutor/main.go:140-142 | investigate iff the recipient is a contract equal to the source; "already substituted" iff the source is a contract different from the recipient; "not a contract" iff the source is not a contract |
| Substitutor.FetchStorage | payouts-substitutor/main.go:150-166 | the fetch succeeds iff the chain returns storage, and then gives that storage as a field map |
| Substitutor.Decide | payouts-substitutor/main.go:235-276 | not-a-contract and already-substituted exactly as classified; errors and oven outcomes only for investigated candidates; not-an-oven iff the fetched storage lacks the marker; no-owner iff it is an oven without `owner`; a redirect names the decoded, parseable owner of an oven |
| Substitutor.Apply | payouts-substitutor/main.go:253 | only a redirect changes a candidate, and then only its recipient, which becomes the owner |
| Substitutor.AuditEntry | payouts-substitutor/main.go:248-272 | a candidate's record is never at `system` level, so the threshold applies to it; it starts with the candidate's source; it is at `redirects` level iff the candidate is redirected |
| Substitutor.ResolveAll | payouts-substitutor/main.go:232-277 | the log only grows; a returned batch means every candidate was decided, is the input with each decision applied, and the log gained exactly the passing records of the candidates, in order |
| Substitutor.MutateCandidates | payouts-substitutor/main.go:211-287 | a returned batch means every candidate was decided, the client was created and the log opened, it is the input with each decision applied, and the log holds exactly the passing banner, settings, candidate and summary records |
| SubstitutorProperties.NoFetchWithoutInvestigation | payouts-substitutor/main.go:266-276 | a candidate that is not investigated is decided the same on any chain, and is left unchanged |
| SubstitutorProperties.FetchOnlyOwnSource | payouts-substitutor/main.go:236 | a decision depends only on the storage of the candidate's own source |
| SubstitutorProperties.InvestigatedOutcomes | payouts-substitutor/main.go:236-265 | for an investigated candidate: fetch error aborts; no marker gives not-an-oven; oven without owner is kept; undecodable owner aborts; owner O redirects to O if O parses, else aborts |
| SubstitutorProperties.EntryLevels | payouts-substitutor/main.go:247-276 | the record is verbose iff not a contract, contracts iff already substituted or not an oven, redirects iff redirected, errors iff an oven without owner |
| SubstitutorProperties.EntryText | payouts-substitutor/main.go:255 | every record starts with the source, and a redirect record names the owner right after "redirected to " |
| SubstitutorProperties.SubstitutedPointwise | payouts-substitutor/main.go:232-233 | the substituted batch has the input's length, and position i holds input i after its own decision |
| SubstitutorProperties.TrailPointwise | payouts-substitutor/main.go:247-276 | exactly one record per candidate, in batch order |
| SubstitutorProperties.ResolveAllComplete | payouts-substitutor/main.go:232-277 | when every candidate is decided and no write fails, the loop returns the substituted batch and appends exactly the filtered records |
| SubstitutorProperties.AllDecidedCons | payouts-substitutor/main.go:232-245 | a batch is decided iff its first candidate is and the rest is |
| SubstitutorProperties.ResolveAllSucceedsIff | payouts-substitutor/main.go:232-277 | the loop returns a batch iff every candidate is decided and the log takes each candidate's passing record in turn |
| SubstitutorProperties.ResolveAllFailClosed | payouts-substitutor/main.go:236-245 | a batch containing a candidate that cannot be decided is never returned |
| SubstitutorProperties.FirstFailureReported | payouts-substitutor/main.go:236-245 | when no write fails, the reported error is that of the first undecidable candidate |
| SubstitutorProperties.WriteFailureAborts | payouts-substitutor/main.go:248-275 | a record the log refuses aborts the loop with that write's error, and the log is left as it was |
| SubstitutorProperties.MutatePreservesShape | payouts-substitutor/main.go:232-286 | a returned batch has the input's length and order, keeps every source and attribute, changes a recipient only where an investigated oven named that recipient as owner, and does change it wherever that happened |
| SubstitutorProperties.MutateFailClosed | payouts-substitutor/main.go:236-245 | a hook call on a batch containing an undecidable candidate returns no batch |
| SubstitutorProperties.MutateComplete | payouts-substitutor/main.go:211-287 | with a working client and log and every candidate decided, the hook returns the substituted batch and the log holds the filtered banner, settings, per-candidate records and summary |
| SubstitutorProperties.MutateSucceedsIff | payouts-substitutor/main.go:211-287 | the hook returns a batch iff the client is created, the log opens, every candidate is decided and the log takes each passing record of banner, settings, candidates and summary in turn |
| SubstitutorProperties.RefusedWriteAborts | payouts-substitutor/main.go:222-282 | a log that refuses any passing record of the batch, banner, settings, a candidate's record or the summary, leaves the hook without a batch |
| SubstitutorProperties.NoLogFileSucceedsIffDecided | payouts-substitutor/main.go:95-130 | without a log file, the hook succeeds iff the client is created and every candidate is decided, and nothing is written |
| SubstitutorProperties.BannerFailureAborts | payouts-substitutor/main.go:222-225 | a refused banner aborts the hook before any candidate is inspected |
| SubstitutorProperties.BannerFirst | payouts-substitutor/main.go:222 | with a log file that opens and accepts it, the first line is the cycle banner, whatever the level and whatever happens later |
| SubstitutorProperties.SecondPassAlreadySubstituted | payouts-substitutor/main.go:266-270 | a candidate redirected to an owner other than its source is "already substituted" on a second pass, without any fetch |
| SubstitutorProperties.ApplyStable | payouts-substitutor/main.go:247-259 | deciding a candidate again after applying its decision leaves it unchanged |
| SubstitutorProperties.SubstitutedIdempotent | payouts-substitutor/main.go:232-286 | substituting an already substituted batch changes nothing |
| SubstitutorProperties.MutateIdempotent | payouts-substitutor/main.go:211-287 | running the hook on its own output, against the same chain and a log that takes every write, returns that output unchanged |
| Scenarios.OvenWithOwner | payouts-substitutor/main.go:247-258 | KT1A paying itself, with storage naming owner tz1Owner, becomes a payout to tz1Owner; the log holds the banner and one redirect line |
| Scenarios.OvenWithoutOwner | payouts-substitutor/main.go:247-251 | KT1A paying itself, an oven without owner, is unchanged; the log holds the banner and one warning line |
| Scenarios.NoContracts | payouts-substitutor/main.go:271-275 | tz1X paying tz1Y is unchanged on any chain; its verbose line is filtered out at `contracts` |

## Left out

- JSON decoding of the extension configuration is left out. The model starts from the decoded record. It also ignores that the Go code decodes into a process-wide value, so fields absent from a later configuration keep earlier values.
- `url.ParseRequestURI` is an input predicate (`Host.isRequestUri`). So is `tezos.ParseAddress` (`Chain.parses`). Both are library parsers.
- `rpcClient`, `GetContractScript` and Micheline decoding are network and library calls. They become the `Chain.storage` oracle, which already returns the decoded value or a failure reason.
- The Micheline-to-Go rendering is summarised by the `Value` datatype. `Str` covers every value whose JSON form is a string.
- The chain is one snapshot per batch: `Chain.storage` is a function of the address, so repeated fetches of the same account within a batch agree. The code calls `GetContractScript` afresh for every investigated candidate, so a later fetch of an account seen earlier in the batch could see newer storage or fail on its own; neither is modelled.
- `json.Marshal` failing on an owner value is left out. Decoded storage values always marshal.
- The bytes and errors of real file I/O become the `LogIo` oracle. A failed write is modelled as writing nothing; a partial write is not modelled.
- Errors from closing the log file are not modelled. The source ignores them.
- The JSON-RPC endpoint, `main`, `rwCloser`, `initExtension`, the request context and the close channel are host transport. They contain no decision logic.
- The Go `*rpc.Error` wrapping is not modelled. All failures map to one internal error there. The model keeps them apart as `BatchError` cases.
- Substitutor.Apply: sets the recipient to the owner string itself. The source stores `tezos.MustParseAddress(owner)`, so the model assumes that a parsed address prints back as the text it was parsed from.
