/**
 The substitution resolver: `requiresInvestigations` and the batch loop of
 `mutateCandidates` in payouts-substitutor/main.go.

 Each candidate of a batch is classified; a self-paying contract has its
 storage fetched, and when that storage marks it as an oven with a known
 owner, the candidate's recipient becomes the owner. One audit record is
 produced per candidate, and any failure aborts the whole batch.
 */
module Substitutor {
  import opened Wrappers
  import opened Addresses
  import opened LogLevels
  import opened Storage
  import opened AuditLog
  import opened Decimal
  import opened Config

  /** A payout candidate: who pays, who receives, and the remaining payout
      attributes, which this core passes through untouched. */
  datatype Candidate = Candidate(source: Address, recipient: Address, attributes: map<string, string>)

  datatype Category = Investigate | SourceIsContract | SourceNotContract

  /** A contract paying itself: the only kind of candidate worth inspecting. */
  predicate RequiresInvestigation(c: Candidate) {
    IsContract(c.recipient) && c.source == c.recipient
  }

  /** The three-way branch of the batch loop. */
  function Categorize(c: Candidate): (k: Category)
    ensures k.Investigate? <==> RequiresInvestigation(c)
    ensures k.SourceIsContract? <==> IsContract(c.source) && c.source != c.recipient
    ensures k.SourceNotContract? <==> !IsContract(c.source)
  {
    if RequiresInvestigation(c) then Investigate
    else if IsContract(c.source) then SourceIsContract
    else SourceNotContract
  }

  /** The outcome for one candidate; it alone decides the audit record and
      whether the recipient changes. */
  datatype Decision =
    | NotAContract
    | AlreadySubstituted
    | NotAnOven
    | NoOwner
    | RedirectTo(owner: Address)

  /** Every way a batch can fail; none of them returns a batch. */
  datatype BatchError =
    | RpcClientFailed
    | LogFailed(logError: LogError)
    | StorageFetchFailed(reason: string)
    | OwnerDecodeFailed(decodeError: DecodeError)
    | OwnerUnparsable(owner: string)

  /** The chain as the resolver sees it: the decoded storage of an account
      (or the reason it could not be fetched or decoded), and whether a
      string parses as an address. A string that does not parse makes
      `tezos.MustParseAddress` panic. */
  datatype Chain = Chain(storage: Address -> Result<Value, string>, parses: string -> bool)

  /** Everything outside the core a batch run depends on. */
  datatype Env = Env(chain: Chain, io: LogIo, clientOk: bool)

  /** Fetch and decode an account's storage into a field map. */
  function FetchStorage(chain: Chain, a: Address): (r: Result<StorageMap, BatchError>)
    ensures r.Success? <==> chain.storage(a).Success?
    ensures r.Success? ==> r.value == AsStorageMap(chain.storage(a).value)
  {
    match chain.storage(a)
    case Success(v) => Success(AsStorageMap(v))
    case Failure(reason) => Failure(StorageFetchFailed(reason))
  }

  /** Decide one candidate. Only an investigated candidate touches the chain. */
  function Decide(chain: Chain, c: Candidate): (r: Result<Decision, BatchError>)
    ensures r == Success(NotAContract) <==> !IsContract(c.source)
    ensures r == Success(AlreadySubstituted) <==> IsContract(c.source) && c.source != c.recipient
    ensures r.Failure? || r.value.NotAnOven? || r.value.NoOwner? || r.value.RedirectTo? ==>
              RequiresInvestigation(c)
    ensures RequiresInvestigation(c) ==>
              (r == Success(NotAnOven) <==>
                 FetchStorage(chain, c.source).Success? && !IsOven(FetchStorage(chain, c.source).value))
    ensures RequiresInvestigation(c) ==>
              (r == Success(NoOwner) <==>
                 FetchStorage(chain, c.source).Success?
                 && IsOven(FetchStorage(chain, c.source).value)
                 && OwnerField !in FetchStorage(chain, c.source).value)
    ensures r.Success? && r.value.RedirectTo? ==>
              && FetchStorage(chain, c.source).Success?
              && IsOven(FetchStorage(chain, c.source).value)
              && GetOwnerAddress(FetchStorage(chain, c.source).value) == Success(Some(r.value.owner))
              && chain.parses(r.value.owner)
  {
    match Categorize(c)
    case SourceNotContract => Success(NotAContract)
    case SourceIsContract => Success(AlreadySubstituted)
    case Investigate =>
      match FetchStorage(chain, c.source)
      case Failure(e) => Failure(e)
      case Success(m) =>
        if !IsOven(m) then Success(NotAnOven)
        else
          match GetOwnerAddress(m)
          case Failure(e) => Failure(OwnerDecodeFailed(e))
          case Success(None) => Success(NoOwner)
          case Success(Some(owner)) =>
            if chain.parses(owner) then Success(RedirectTo(owner)) else Failure(OwnerUnparsable(owner))
  }

  /** The candidate after its decision: only a redirect changes it, and
      then only its recipient. */
  function Apply(c: Candidate, d: Decision): (c': Candidate)
    ensures c'.source == c.source && c'.attributes == c.attributes
    ensures c' != c ==> d.RedirectTo? && c'.recipient == d.owner
    ensures d.RedirectTo? ==> c'.recipient == d.owner
  {
    if d.RedirectTo? then c.(recipient := d.owner) else c
  }

  /** The single audit record a decision produces: never at `system`
      level, so always subject to the threshold, and always naming the
      candidate's source first. */
  function AuditEntry(c: Candidate, d: Decision): (e: Entry)
    ensures IsConfigurable(e.level)
    ensures c.source <= e.message
    ensures e.level == Redirects <==> d.RedirectTo?
  {
    match d
    case NotAContract => Entry(Verbose, CandidateLogMessage(c.source, "not a contract."))
    case AlreadySubstituted => Entry(Contracts, CandidateLogMessage(c.source, "already substituted."))
    case NotAnOven => Entry(Contracts, CandidateLogMessage(c.source, "not an oven."))
    case NoOwner =>
      Entry(Errors, CandidateLogMessage(c.source, "WARNING: no owner address. Kept unchanged."))
    case RedirectTo(owner) =>
      Entry(Redirects, CandidateLogMessage(c.source, "redirected to " + owner + "."))
  }

  /** Every candidate of the batch was decided without error. */
  ghost predicate AllDecided(chain: Chain, cands: seq<Candidate>) {
    forall i :: 0 <= i < |cands| ==> Decide(chain, cands[i]).Success?
  }

  /** The batch a fully decided input turns into. */
  function Substituted(chain: Chain, cands: seq<Candidate>): seq<Candidate>
    requires AllDecided(chain, cands)
  {
    if cands == [] then []
    else [Apply(cands[0], Decide(chain, cands[0]).value)] + Substituted(chain, cands[1..])
  }

  /** The records a fully decided input produces, one per candidate. */
  function Trail(chain: Chain, cands: seq<Candidate>): seq<Entry>
    requires AllDecided(chain, cands)
  {
    if cands == [] then []
    else [AuditEntry(cands[0], Decide(chain, cands[0]).value)] + Trail(chain, cands[1..])
  }

  /** The result of a batch run: the batch or the error that aborted it,
      and what the run left in the log file either way. */
  datatype Run = Run(outcome: Result<seq<Candidate>, BatchError>, log: LogFile)

  /** The candidate loop: decide, record, substitute, in input order, and
      stop at the first failure. */
  function ResolveAll(cfg: Configuration, env: Env, cands: seq<Candidate>, log: LogFile): (run: Run)
    ensures Extends(log, run.log)
    ensures run.outcome.Success? ==>
              AllDecided(env.chain, cands) && run.outcome.value == Substituted(env.chain, cands)
    ensures run.outcome.Success? ==>
              AllDecided(env.chain, cands) && run.log == AfterWrites(cfg.logLevel, log, Trail(env.chain, cands))
    decreases |cands|
  {
    if cands == [] then Run(Success([]), log)
    else
      match Decide(env.chain, cands[0])
      case Failure(e) => Run(Failure(e), log)
      case Success(d) =>
        var entry := AuditEntry(cands[0], d);
        match WriteLog(cfg.logLevel, env.io, log, entry.message, entry.level)
        case Failure(e) => Run(Failure(LogFailed(e)), log)
        case Success(log') =>
          var rest := ResolveAll(cfg, env, cands[1..], log');
          match rest.outcome
          case Failure(e) => rest
          case Success(out) =>
            assert log' == AfterWrites(cfg.logLevel, log, [entry]);
            AfterWritesAppend(cfg.logLevel, log, [entry], Trail(env.chain, cands[1..]));
            Run(Success([Apply(cands[0], d)] + out), rest.log)
  }

  function BannerLine(cycle: int): string {
    "=== Cycle " + FormatInt(cycle) + " ==="
  }

  function SettingsLine(cfg: Configuration): string {
    "RPC node is " + cfg.rpcNode + "\nLog level is " + cfg.logLevel
  }

  function SummaryLine(count: nat): string {
    FormatInt(count) + " candidates inspected."
  }

  /** The banner and settings records written before any candidate. */
  function Preamble(cfg: Configuration, cycle: int): seq<Entry> {
    [Entry(System, BannerLine(cycle)), Entry(Debug, SettingsLine(cfg))]
  }

  /** The records a fully decided batch run produces, before filtering. */
  function BatchTrail(cfg: Configuration, chain: Chain, cycle: int, cands: seq<Candidate>): seq<Entry>
    requires AllDecided(chain, cands)
  {
    Preamble(cfg, cycle) + Trail(chain, cands) + [Entry(Debug, SummaryLine(|cands|))]
  }

  /** The hook handler: make the RPC client, open the log, write the banner
      and settings, run the candidate loop, write the summary. */
  function MutateCandidates(cfg: Configuration, env: Env, cycle: int, cands: seq<Candidate>): (run: Run)
    ensures run.outcome.Success? ==>
              AllDecided(env.chain, cands) && run.outcome.value == Substituted(env.chain, cands)
    ensures run.outcome.Success? ==> env.clientOk && (cfg.logFile == "" || env.io.opens)
    ensures run.log.Open? ==> cfg.logFile != ""
    ensures run.outcome.Success? ==>
              && OpenLog(cfg.logFile, env.io).Success?
              && AllDecided(env.chain, cands)
              && run.log == AfterWrites(cfg.logLevel, OpenLog(cfg.logFile, env.io).value,
                                        BatchTrail(cfg, env.chain, cycle, cands))
  {
    if !env.clientOk then Run(Failure(RpcClientFailed), Disabled)
    else
      match OpenLog(cfg.logFile, env.io)
      case Failure(e) => Run(Failure(LogFailed(e)), Disabled)
      case Success(log0) =>
        var pre := WriteEntries(cfg.logLevel, env.io, log0, Preamble(cfg, cycle));
        if pre.error.Some? then Run(Failure(LogFailed(pre.error.value)), pre.log)
        else
          var body := ResolveAll(cfg, env, cands, pre.log);
          if body.outcome.Failure? then body
          else
            var post := WriteEntries(cfg.logLevel, env.io, body.log, [Entry(Debug, SummaryLine(|cands|))]);
            if post.error.Some? then Run(Failure(LogFailed(post.error.value)), post.log)
            else
              AfterWritesAppend(cfg.logLevel, log0, Preamble(cfg, cycle), Trail(env.chain, cands));
              AfterWritesAppend(cfg.logLevel, log0, Preamble(cfg, cycle) + Trail(env.chain, cands),
                                [Entry(Debug, SummaryLine(|cands|))]);
              Run(body.outcome, post.log)
  }
}
