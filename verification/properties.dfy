/**
 Properties of the substitution resolver: what a batch run returns, what it
 leaves in the audit log, when it aborts, and that running it again on its
 own output changes nothing.
 */
module SubstitutorProperties {
  import opened Wrappers
  import opened LogLevels
  import opened Storage
  import opened AuditLog
  import opened Config
  import opened Substitutor

  // ---------------------------------------------------------------------
  // Per candidate

  /** A candidate that is not investigated is decided without looking at
      the chain at all: no storage is fetched for it. */
  lemma NoFetchWithoutInvestigation(chain1: Chain, chain2: Chain, c: Candidate)
    requires !RequiresInvestigation(c)
    ensures Decide(chain1, c) == Decide(chain2, c)
    ensures Decide(chain1, c).Success? && Apply(c, Decide(chain1, c).value) == c
  {
  }

  /** An investigated candidate depends only on its own source's storage. */
  lemma FetchOnlyOwnSource(chain1: Chain, chain2: Chain, c: Candidate)
    requires chain1.storage(c.source) == chain2.storage(c.source)
    requires chain1.parses == chain2.parses
    ensures Decide(chain1, c) == Decide(chain2, c)
  {
  }

  /** The decision for an investigated candidate, case by case: a fetch
      error or an undecodable or unparsable owner is an error, a storage
      without the oven marker is "not an oven", an oven without an owner is
      kept, and an oven with owner `o` is redirected to `o`. */
  lemma InvestigatedOutcomes(chain: Chain, c: Candidate)
    requires RequiresInvestigation(c)
    ensures chain.storage(c.source).Failure? ==>
              Decide(chain, c) == Failure(StorageFetchFailed(chain.storage(c.source).error))
    ensures chain.storage(c.source).Success? ==>
              var m := AsStorageMap(chain.storage(c.source).value);
              && (!IsOven(m) ==> Decide(chain, c) == Success(NotAnOven))
              && (IsOven(m) && OwnerField !in m ==> Decide(chain, c) == Success(NoOwner))
              && (IsOven(m) && GetOwnerAddress(m).Failure? ==>
                    Decide(chain, c) == Failure(OwnerDecodeFailed(GetOwnerAddress(m).error)))
              && (IsOven(m) && GetOwnerAddress(m) == Success(Some(OwnerOf(m))) ==>
                    Decide(chain, c) ==
                      if chain.parses(OwnerOf(m)) then Success(RedirectTo(OwnerOf(m)))
                      else Failure(OwnerUnparsable(OwnerOf(m))))
  {
  }

  /** The owner string a storage names, when it names one. */
  function OwnerOf(m: StorageMap): string {
    if OwnerField in m && m[OwnerField].Str? then m[OwnerField].s else ""
  }

  /** A record's level is determined by the decision: verbose for a
      non-contract, contracts for "already substituted" and "not an oven",
      redirects for a redirect and errors for an oven without owner. */
  lemma EntryLevels(c: Candidate, d: Decision)
    ensures AuditEntry(c, d).level == Verbose <==> d.NotAContract?
    ensures AuditEntry(c, d).level == Contracts <==> d.AlreadySubstituted? || d.NotAnOven?
    ensures AuditEntry(c, d).level == Redirects <==> d.RedirectTo?
    ensures AuditEntry(c, d).level == Errors <==> d.NoOwner?
  {
  }

  /** Every record names the candidate's source first, and a redirect
      record names the owner right after "redirected to ". */
  lemma EntryText(c: Candidate, d: Decision)
    ensures c.source <= AuditEntry(c, d).message
    ensures d.RedirectTo? ==>
              var k := |c.source| + 2 + |"redirected to "|;
              && k + |d.owner| <= |AuditEntry(c, d).message|
              && AuditEntry(c, d).message[k..k + |d.owner|] == d.owner
  {
    if d.RedirectTo? {
      var m := AuditEntry(c, d).message;
      var tail := "redirected to " + d.owner + ".";
      assert m == CandidateLogMessage(c.source, tail);
      assert m[|c.source| + 2..] == tail;
      var k := |c.source| + 2 + |"redirected to "|;
      assert m[k..k + |d.owner|] == tail[|"redirected to "|..|"redirected to "| + |d.owner|];
    }
  }

  // ---------------------------------------------------------------------
  // Whole batches

  /** The substituted batch has the input's length and, position by
      position, the input candidate after its own decision. */
  lemma {:induction false} SubstitutedPointwise(chain: Chain, cands: seq<Candidate>)
    requires AllDecided(chain, cands)
    ensures |Substituted(chain, cands)| == |cands|
    ensures forall i :: 0 <= i < |cands| ==>
              Substituted(chain, cands)[i] == Apply(cands[i], Decide(chain, cands[i]).value)
    decreases |cands|
  {
    if cands != [] {
      assert AllDecided(chain, cands[1..]) by {
        forall i | 0 <= i < |cands[1..]|
          ensures Decide(chain, cands[1..][i]).Success?
        {
          assert cands[1..][i] == cands[i + 1];
        }
      }
      SubstitutedPointwise(chain, cands[1..]);
      var s := Substituted(chain, cands);
      forall i | 1 <= i < |cands|
        ensures s[i] == Apply(cands[i], Decide(chain, cands[i]).value)
      {
        assert s[i] == Substituted(chain, cands[1..])[i - 1];
        assert cands[1..][i - 1] == cands[i];
      }
    }
  }

  /** Exactly one record per candidate, in batch order. */
  lemma {:induction false} TrailPointwise(chain: Chain, cands: seq<Candidate>)
    requires AllDecided(chain, cands)
    ensures |Trail(chain, cands)| == |cands|
    ensures forall i :: 0 <= i < |cands| ==>
              Trail(chain, cands)[i] == AuditEntry(cands[i], Decide(chain, cands[i]).value)
    decreases |cands|
  {
    if cands != [] {
      assert AllDecided(chain, cands[1..]) by {
        forall i | 0 <= i < |cands[1..]|
          ensures Decide(chain, cands[1..][i]).Success?
        {
          assert cands[1..][i] == cands[i + 1];
        }
      }
      TrailPointwise(chain, cands[1..]);
      var t := Trail(chain, cands);
      forall i | 1 <= i < |cands|
        ensures t[i] == AuditEntry(cands[i], Decide(chain, cands[i]).value)
      {
        assert t[i] == Trail(chain, cands[1..])[i - 1];
        assert cands[1..][i - 1] == cands[i];
      }
    }
  }

  /** The log a run may write to without a write failing. */
  ghost predicate Writable(env: Env, log: LogFile) {
    log.Disabled? || AcceptsAll(env.io)
  }

  /** One step of the loop: a decided first candidate whose record is
      written is followed by the rest of the batch. */
  lemma ResolveAllCons(cfg: Configuration, env: Env, cands: seq<Candidate>, log: LogFile)
    requires cands != [] && Decide(env.chain, cands[0]).Success?
    requires var e := AuditEntry(cands[0], Decide(env.chain, cands[0]).value);
             WriteLog(cfg.logLevel, env.io, log, e.message, e.level).Success?
    ensures var d := Decide(env.chain, cands[0]).value;
            var e := AuditEntry(cands[0], d);
            var rest := ResolveAll(cfg, env, cands[1..], WriteLog(cfg.logLevel, env.io, log, e.message, e.level).value);
            ResolveAll(cfg, env, cands, log)
            == if rest.outcome.Success? then Run(Success([Apply(cands[0], d)] + rest.outcome.value), rest.log)
               else rest
  {
  }

  /** When every candidate is decided and no write fails, the loop returns
      the substituted batch and appends exactly the filtered trail. */
  lemma {:induction false} ResolveAllComplete(cfg: Configuration, env: Env, cands: seq<Candidate>, log: LogFile)
    requires AllDecided(env.chain, cands)
    requires Writable(env, log)
    ensures ResolveAll(cfg, env, cands, log)
            == Run(Success(Substituted(env.chain, cands)),
                   AfterWrites(cfg.logLevel, log, Trail(env.chain, cands)))
    decreases |cands|
  {
    if cands == [] {
      assert log.Open? ==> log.written + Filter(cfg.logLevel, []) == log.written;
    } else {
      assert AllDecided(env.chain, cands[1..]) by {
        forall i | 0 <= i < |cands[1..]|
          ensures Decide(env.chain, cands[1..][i]).Success?
        {
          assert cands[1..][i] == cands[i + 1];
        }
      }
      var d := Decide(env.chain, cands[0]).value;
      var entry := AuditEntry(cands[0], d);
      var w := WriteLog(cfg.logLevel, env.io, log, entry.message, entry.level);
      assert w.Success?;
      assert w.value == AfterWrites(cfg.logLevel, log, [entry]);
      ResolveAllCons(cfg, env, cands, log);
      ResolveAllComplete(cfg, env, cands[1..], w.value);
      var rest := Trail(env.chain, cands[1..]);
      assert Trail(env.chain, cands) == [entry] + rest;
      AfterWritesAppend(cfg.logLevel, log, [entry], rest);
    }
  }

  /** A batch is decided when its first candidate is and the rest is. */
  lemma AllDecidedCons(chain: Chain, cands: seq<Candidate>)
    requires cands != []
    ensures AllDecided(chain, cands)
            <==> Decide(chain, cands[0]).Success? && AllDecided(chain, cands[1..])
  {
    if Decide(chain, cands[0]).Success? && AllDecided(chain, cands[1..]) {
      forall i | 0 <= i < |cands|
        ensures Decide(chain, cands[i]).Success?
      {
        if i > 0 {
          assert cands[i] == cands[1..][i - 1];
        }
      }
    }
    if AllDecided(chain, cands) {
      forall i | 0 <= i < |cands[1..]|
        ensures Decide(chain, cands[1..][i]).Success?
      {
        assert cands[1..][i] == cands[i + 1];
      }
    }
  }

  /** The loop succeeds exactly when every candidate is decided and the
      log takes each passing record in turn; any refused write or
      undecidable candidate means no batch. */
  lemma {:induction false} ResolveAllSucceedsIff(cfg: Configuration, env: Env, cands: seq<Candidate>, log: LogFile)
    ensures ResolveAll(cfg, env, cands, log).outcome.Success?
            <==> && AllDecided(env.chain, cands)
                 && AcceptsInTurn(cfg.logLevel, env.io, log, Trail(env.chain, cands))
    decreases |cands|
  {
    if cands != [] {
      AllDecidedCons(env.chain, cands);
      if Decide(env.chain, cands[0]).Success? {
        var d := Decide(env.chain, cands[0]).value;
        var entry := AuditEntry(cands[0], d);
        var w := WriteLog(cfg.logLevel, env.io, log, entry.message, entry.level);
        if w.Success? {
          assert w.value == AfterWrites(cfg.logLevel, log, [entry]);
          ResolveAllCons(cfg, env, cands, log);
          ResolveAllSucceedsIff(cfg, env, cands[1..], w.value);
          if AllDecided(env.chain, cands) {
            assert Trail(env.chain, cands) == [entry] + Trail(env.chain, cands[1..]);
          }
        } else if AllDecided(env.chain, cands) {
          assert Trail(env.chain, cands)[0] == entry;
        }
      }
    }
  }

  /** Fail closed: a batch in which some candidate cannot be decided is
      never returned. */
  lemma ResolveAllFailClosed(cfg: Configuration, env: Env, cands: seq<Candidate>, log: LogFile, k: nat)
    requires k < |cands|
    requires Decide(env.chain, cands[k]).Failure?
    ensures ResolveAll(cfg, env, cands, log).outcome.Failure?
  {
  }

  /** When no write fails, the error a failed loop reports is that of the
      first candidate that could not be decided. */
  lemma {:induction false} FirstFailureReported(cfg: Configuration, env: Env, cands: seq<Candidate>,
                                                log: LogFile, k: nat)
    requires k < |cands|
    requires forall j :: 0 <= j < k ==> Decide(env.chain, cands[j]).Success?
    requires Decide(env.chain, cands[k]).Failure?
    requires Writable(env, log)
    ensures ResolveAll(cfg, env, cands, log).outcome == Failure(Decide(env.chain, cands[k]).error)
    decreases k
  {
    if k > 0 {
      var d := Decide(env.chain, cands[0]).value;
      var entry := AuditEntry(cands[0], d);
      var w := WriteLog(cfg.logLevel, env.io, log, entry.message, entry.level);
      assert w.Success?;
      forall j | 0 <= j < k - 1
        ensures Decide(env.chain, cands[1..][j]).Success?
      {
        assert cands[1..][j] == cands[j + 1];
      }
      assert cands[1..][k - 1] == cands[k];
      FirstFailureReported(cfg, env, cands[1..], w.value, k - 1);
    }
  }

  /** A successful run returns a batch of the input's length, in the
      input's order, in which only recipients differ from the input, and a
      recipient differs only where an investigated oven named its owner. */
  lemma MutatePreservesShape(cfg: Configuration, env: Env, cycle: int, cands: seq<Candidate>)
    requires MutateCandidates(cfg, env, cycle, cands).outcome.Success?
    ensures var out := MutateCandidates(cfg, env, cycle, cands).outcome.value;
            && |out| == |cands|
            && (forall i :: 0 <= i < |cands| ==>
                  out[i].source == cands[i].source && out[i].attributes == cands[i].attributes)
            && (forall i :: 0 <= i < |cands| && out[i].recipient != cands[i].recipient ==>
                  RequiresInvestigation(cands[i])
                  && Decide(env.chain, cands[i]) == Success(RedirectTo(out[i].recipient)))
            && (forall i, o :: 0 <= i < |cands| && Decide(env.chain, cands[i]) == Success(RedirectTo(o)) ==>
                  out[i].recipient == o)
  {
    SubstitutedPointwise(env.chain, cands);
  }

  /** Fail closed, for the whole hook. */
  lemma MutateFailClosed(cfg: Configuration, env: Env, cycle: int, cands: seq<Candidate>, k: nat)
    requires k < |cands|
    requires Decide(env.chain, cands[k]).Failure?
    ensures MutateCandidates(cfg, env, cycle, cands).outcome.Failure?
  {
  }

  /** The converse: with a working client and log and every candidate
      decided, the hook returns the substituted batch, and the log holds
      the banner, the settings, one record per candidate and the summary,
      each kept only if it passes the configured threshold. */
  lemma MutateComplete(cfg: Configuration, env: Env, cycle: int, cands: seq<Candidate>)
    requires env.clientOk
    requires cfg.logFile == "" || (env.io.opens && AcceptsAll(env.io))
    requires AllDecided(env.chain, cands)
    ensures MutateCandidates(cfg, env, cycle, cands)
            == Run(Success(Substituted(env.chain, cands)),
                   AfterWrites(cfg.logLevel, OpenLog(cfg.logFile, env.io).value,
                               BatchTrail(cfg, env.chain, cycle, cands)))
  {
    var lvl := cfg.logLevel;
    var log0 := OpenLog(cfg.logFile, env.io).value;
    var head := Preamble(cfg, cycle);
    var trail := Trail(env.chain, cands);
    var tail := [Entry(Debug, SummaryLine(|cands|))];
    WriteEntriesComplete(lvl, env.io, log0, head);
    var log2 := AfterWrites(lvl, log0, head);
    ResolveAllComplete(cfg, env, cands, log2);
    AfterWritesAppend(lvl, log0, head, trail);
    var log3 := AfterWrites(lvl, log0, head + trail);
    WriteEntriesComplete(lvl, env.io, log3, tail);
    AfterWritesAppend(lvl, log0, head + trail, tail);
  }

  /** The hook returns a batch exactly when the client is created, the log
      file opens, every candidate is decided and the log takes each
      passing record of the batch trail in turn: a refused write anywhere
      (banner, settings, a candidate's record, the summary) means no batch. */
  lemma MutateSucceedsIff(cfg: Configuration, env: Env, cycle: int, cands: seq<Candidate>)
    ensures MutateCandidates(cfg, env, cycle, cands).outcome.Success?
            <==> && env.clientOk
                 && OpenLog(cfg.logFile, env.io).Success?
                 && AllDecided(env.chain, cands)
                 && AcceptsInTurn(cfg.logLevel, env.io, OpenLog(cfg.logFile, env.io).value,
                                  BatchTrail(cfg, env.chain, cycle, cands))
  {
    if env.clientOk && OpenLog(cfg.logFile, env.io).Success? {
      var lvl := cfg.logLevel;
      var log0 := OpenLog(cfg.logFile, env.io).value;
      var head := Preamble(cfg, cycle);
      var tail := [Entry(Debug, SummaryLine(|cands|))];
      var pre := WriteEntries(lvl, env.io, log0, head);
      if pre.error.None? {
        ResolveAllSucceedsIff(cfg, env, cands, pre.log);
      }
      if AllDecided(env.chain, cands) {
        var trail := Trail(env.chain, cands);
        AcceptsInTurnAppend(lvl, env.io, log0, head, trail);
        AcceptsInTurnAppend(lvl, env.io, log0, head + trail, tail);
        AfterWritesAppend(lvl, log0, head, trail);
      }
    }
  }

  /** A log that refuses the k-th record of the batch trail, after taking
      every passing record before it, leaves the hook without a batch. */
  lemma RefusedWriteAborts(cfg: Configuration, env: Env, cycle: int, cands: seq<Candidate>, k: nat)
    requires OpenLog(cfg.logFile, env.io).Success? && OpenLog(cfg.logFile, env.io).value.Open?
    requires AllDecided(env.chain, cands)
    requires k < |BatchTrail(cfg, env.chain, cycle, cands)|
    requires var t := BatchTrail(cfg, env.chain, cycle, cands);
             var before := AfterWrites(cfg.logLevel, OpenLog(cfg.logFile, env.io).value, t[..k]);
             && ShallLog(cfg.logLevel, t[k].level)
             && !env.io.accepts(before.written, t[k].message)
    ensures MutateCandidates(cfg, env, cycle, cands).outcome.Failure?
  {
    var t := BatchTrail(cfg, env.chain, cycle, cands);
    var log0 := OpenLog(cfg.logFile, env.io).value;
    MutateSucceedsIff(cfg, env, cycle, cands);
    AcceptsInTurnAppend(cfg.logLevel, env.io, log0, t[..k], t[k..]);
    assert t[..k] + t[k..] == t;
    assert t[k..][0] == t[k];
  }

  /** Without a log file nothing can fail to be written: the hook succeeds
      exactly when the client is created and every candidate is decided. */
  lemma NoLogFileSucceedsIffDecided(cfg: Configuration, env: Env, cycle: int, cands: seq<Candidate>)
    requires cfg.logFile == ""
    ensures MutateCandidates(cfg, env, cycle, cands).outcome.Success?
            <==> env.clientOk && AllDecided(env.chain, cands)
    ensures MutateCandidates(cfg, env, cycle, cands).log == Disabled
  {
    if env.clientOk && AllDecided(env.chain, cands) {
      MutateComplete(cfg, env, cycle, cands);
    }
  }

  /** A record the log refuses aborts the loop with that write's error, and
      the log keeps what it held before. */
  lemma WriteFailureAborts(cfg: Configuration, env: Env, cands: seq<Candidate>, log: LogFile)
    requires |cands| > 0 && Decide(env.chain, cands[0]).Success?
    requires log.Open?
    requires var e := AuditEntry(cands[0], Decide(env.chain, cands[0]).value);
             ShallLog(cfg.logLevel, e.level) && !env.io.accepts(log.written, e.message)
    ensures var e := AuditEntry(cands[0], Decide(env.chain, cands[0]).value);
            ResolveAll(cfg, env, cands, log) == Run(Failure(LogFailed(WriteFailed(e.message))), log)
  {
  }

  /** A banner the log refuses aborts the hook before any candidate is
      looked at, leaving the freshly opened log empty. */
  lemma BannerFailureAborts(cfg: Configuration, env: Env, cycle: int, cands: seq<Candidate>)
    requires env.clientOk && cfg.logFile != "" && env.io.opens
    requires !env.io.accepts([], BannerLine(cycle))
    ensures MutateCandidates(cfg, env, cycle, cands)
            == Run(Failure(LogFailed(WriteFailed(BannerLine(cycle)))), Open([]))
  {
    SystemAlwaysPasses(cfg.logLevel);
    assert WriteEntries(cfg.logLevel, env.io, Open([]), Preamble(cfg, cycle))
           == Appended(Some(WriteFailed(BannerLine(cycle))), Open([]));
  }

  /** With a log file that opens and takes the first write, the first line
      of the log is the cycle banner, whatever the configured level and
      whatever happens to the batch afterwards. */
  lemma BannerFirst(cfg: Configuration, env: Env, cycle: int, cands: seq<Candidate>)
    requires env.clientOk && cfg.logFile != "" && env.io.opens
    requires env.io.accepts([], BannerLine(cycle))
    ensures var log := MutateCandidates(cfg, env, cycle, cands).log;
            log.Open? && |log.written| >= 1 && log.written[0] == BannerLine(cycle) + "\n"
  {
    SystemAlwaysPasses(cfg.logLevel);
    var line := BannerLine(cycle) + "\n";
    var head := Preamble(cfg, cycle);
    var log1 := WriteLog(cfg.logLevel, env.io, Open([]), BannerLine(cycle), System);
    assert log1.Success?;
    assert log1.value.written == [] + [line];
    assert [] + [line] == [line];
    var pre := WriteEntries(cfg.logLevel, env.io, Open([]), head);
    assert pre == WriteEntries(cfg.logLevel, env.io, log1.value, head[1..]);
    assert Extends(log1.value, pre.log);
    var log := MutateCandidates(cfg, env, cycle, cands).log;
    assert Extends(pre.log, log);
    assert [line] <= log.written;
  }

  // ---------------------------------------------------------------------
  // Idempotence

  /** A redirected candidate whose owner differs from its source is, on a
      second pass, "already substituted", whatever the chain then says. */
  lemma SecondPassAlreadySubstituted(chain: Chain, later: Chain, c: Candidate)
    requires Decide(chain, c).Success? && Decide(chain, c).value.RedirectTo?
    requires Decide(chain, c).value.owner != c.source
    ensures Decide(later, Apply(c, Decide(chain, c).value)) == Success(AlreadySubstituted)
  {
  }

  /** Deciding a candidate again after applying its decision leaves it as
      it is (an oven owned by itself is redirected to itself again). */
  lemma ApplyStable(chain: Chain, c: Candidate)
    requires Decide(chain, c).Success?
    ensures var c' := Apply(c, Decide(chain, c).value);
            Decide(chain, c').Success? && Apply(c', Decide(chain, c').value) == c'
  {
    var d := Decide(chain, c).value;
    if d.RedirectTo? && d.owner != c.source {
      SecondPassAlreadySubstituted(chain, chain, c);
    }
  }

  lemma {:induction false} SubstitutedIdempotent(chain: Chain, cands: seq<Candidate>)
    requires AllDecided(chain, cands)
    ensures AllDecided(chain, Substituted(chain, cands))
    ensures Substituted(chain, Substituted(chain, cands)) == Substituted(chain, cands)
  {
    var out := Substituted(chain, cands);
    SubstitutedPointwise(chain, cands);
    forall i | 0 <= i < |out|
      ensures Decide(chain, out[i]).Success?
      ensures Apply(out[i], Decide(chain, out[i]).value) == out[i]
    {
      ApplyStable(chain, cands[i]);
    }
    SubstitutedPointwise(chain, out);
  }

  /** Running the hook on its own output, against the same chain and a log
      that takes every write, returns that output unchanged. */
  lemma MutateIdempotent(cfg: Configuration, env: Env, cycle: int, nextCycle: int, cands: seq<Candidate>)
    requires MutateCandidates(cfg, env, cycle, cands).outcome.Success?
    requires AcceptsAll(env.io)
    ensures var out := MutateCandidates(cfg, env, cycle, cands).outcome.value;
            MutateCandidates(cfg, env, nextCycle, out).outcome == Success(out)
  {
    SubstitutedIdempotent(env.chain, cands);
    MutateComplete(cfg, env, nextCycle, Substituted(env.chain, cands));
  }
}
