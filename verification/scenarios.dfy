/** Worked batches: a redirected oven, an oven without owner, and a payout
    between two implicit accounts. */
module Scenarios {
  import opened Wrappers
  import opened LogLevels
  import opened Storage
  import opened AuditLog
  import opened Config
  import opened Substitutor
  import opened SubstitutorProperties

  /** A chain on which only `KT1A` has storage, and every owner parses. */
  function OvenChain(storage: Value): Chain {
    Chain(a => if a == "KT1A" then Success(storage) else Failure("no such contract"), s => true)
  }

  function Settings(): Configuration {
    Configuration("audit.log", Contracts, DefaultRpcNode)
  }

  function ReliableIo(): (io: LogIo)
    ensures AcceptsAll(io) && io.opens
  {
    LogIo(true, (written, message) => true)
  }

  /** Filtering a one-candidate batch trail at `contracts` keeps the banner
      and the candidate's record when that record passes. */
  lemma OneCandidateLog(chain: Chain, cycle: int, c: Candidate)
    requires Decide(chain, c).Success?
    ensures AllDecided(chain, [c])
    ensures
      var e := AuditEntry(c, Decide(chain, c).value);
      Filter(Contracts, BatchTrail(Settings(), chain, cycle, [c]))
      == [BannerLine(cycle) + "\n"] + (if ShallLog(Contracts, e.level) then [e.message + "\n"] else [])
  {
    var e := AuditEntry(c, Decide(chain, c).value);
    assert Trail(chain, [c]) == [e];
    var t := BatchTrail(Settings(), chain, cycle, [c]);
    assert t == [Entry(System, BannerLine(cycle)), Entry(Debug, SettingsLine(Settings())), e,
                 Entry(Debug, SummaryLine(1))];
    var summary := Entry(Debug, SummaryLine(1));
    var mine := if ShallLog(Contracts, e.level) then [e.message + "\n"] else [];
    assert !ShallLog(Contracts, Debug) && ShallLog(Contracts, System);
    assert t[1..] == [Entry(Debug, SettingsLine(Settings())), e, summary];
    assert t[1..][1..] == [e, summary];
    assert t[1..][1..][1..] == [summary];
    assert Filter(Contracts, [summary]) == [];
    assert Filter(Contracts, [e, summary]) == mine;
    assert Filter(Contracts, t[1..]) == mine;
    assert Filter(Contracts, t) == [BannerLine(cycle) + "\n"] + mine;
  }

  function OwnedOven(): Value {
    Record(map[OvenMarker := Str("KT1Proxy"), OwnerField := Str("tz1Owner")])
  }

  function OwnerlessOven(): Value {
    Record(map[OvenMarker := Str("KT1Proxy")])
  }

  function SelfPaying(): Candidate {
    Candidate("KT1A", "KT1A", map[])
  }

  lemma SelfPayingDecisions()
    ensures Decide(OvenChain(OwnedOven()), SelfPaying()) == Success(RedirectTo("tz1Owner"))
    ensures Decide(OvenChain(OwnerlessOven()), SelfPaying()) == Success(NoOwner)
  {
    assert "KT1" <= "KT1A";
    assert GetOwnerAddress(AsStorageMap(OwnedOven())) == Success(Some("tz1Owner"));
    assert OwnerField !in AsStorageMap(OwnerlessOven());
  }

  /** An oven paying itself, whose storage names owner `tz1Owner`, is
      redirected to that owner with one redirects-level record. */
  lemma OvenWithOwner(cycle: int)
    ensures
      var env := Env(OvenChain(OwnedOven()), ReliableIo(), true);
      MutateCandidates(Settings(), env, cycle, [SelfPaying()])
      == Run(Success([Candidate("KT1A", "tz1Owner", map[])]),
             Open([BannerLine(cycle) + "\n", "KT1A" + ": " + "redirected to " + "tz1Owner" + "." + "\n"]))
  {
    var env := Env(OvenChain(OwnedOven()), ReliableIo(), true);
    var c := SelfPaying();
    SelfPayingDecisions();
    OneCandidateLog(env.chain, cycle, c);
    MutateComplete(Settings(), env, cycle, [c]);
    assert Substituted(env.chain, [c]) == [Candidate("KT1A", "tz1Owner", map[])];
    var line := "KT1A" + ": " + "redirected to " + "tz1Owner" + "." + "\n";
    assert AuditEntry(c, RedirectTo("tz1Owner")).message + "\n" == line;
    assert [] + [BannerLine(cycle) + "\n", line] == [BannerLine(cycle) + "\n", line];
  }

  /** An oven without an owner field is kept, with one errors-level record. */
  lemma OvenWithoutOwner(cycle: int)
    ensures
      var env := Env(OvenChain(OwnerlessOven()), ReliableIo(), true);
      MutateCandidates(Settings(), env, cycle, [SelfPaying()])
      == Run(Success([SelfPaying()]),
             Open([BannerLine(cycle) + "\n", "KT1A" + ": " + "WARNING: no owner address. Kept unchanged." + "\n"]))
  {
    var env := Env(OvenChain(OwnerlessOven()), ReliableIo(), true);
    var c := SelfPaying();
    SelfPayingDecisions();
    OneCandidateLog(env.chain, cycle, c);
    MutateComplete(Settings(), env, cycle, [c]);
    assert Substituted(env.chain, [c]) == [c];
    var line := "KT1A" + ": " + "WARNING: no owner address. Kept unchanged." + "\n";
    assert AuditEntry(c, NoOwner).message + "\n" == line;
    assert [] + [BannerLine(cycle) + "\n", line] == [BannerLine(cycle) + "\n", line];
  }

  /** No contract involved: unchanged, one verbose record, which the
      default `contracts` threshold drops; no storage is consulted. */
  lemma NoContracts(chain: Chain, cycle: int)
    ensures
      var env := Env(chain, ReliableIo(), true);
      MutateCandidates(Settings(), env, cycle, [Candidate("tz1X", "tz1Y", map[])])
      == Run(Success([Candidate("tz1X", "tz1Y", map[])]), Open([BannerLine(cycle) + "\n"]))
  {
    var env := Env(chain, ReliableIo(), true);
    var c := Candidate("tz1X", "tz1Y", map[]);
    assert "tz1X"[0] != "KT1"[0];
    assert Decide(env.chain, c) == Success(NotAContract);
    OneCandidateLog(env.chain, cycle, c);
    MutateComplete(Settings(), env, cycle, [c]);
    assert Substituted(env.chain, [c]) == [c];
    assert [] + [BannerLine(cycle) + "\n"] == [BannerLine(cycle) + "\n"];
  }
}
