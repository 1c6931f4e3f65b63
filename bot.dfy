/** The evaluation pipeline of the meme-token tracker: the eligibility
    filter over a token record and its audit, the per-token decision, and the
    `processed` ledger that makes every address be decided at most once.
    The audit client is a function from address to audit record, supplied per
    polling cycle; the calls made to it and the alerts handed to the notifier
    are kept as logs so that "no audit call" and "at most one alert" can be
    stated. */
module Bot {
  import opened DexProcessor
  import opened Settings

  /** What the on-chain audit reports for one token. */
  datatype Audit = Audit(top10: real, devHolding: real, devTransfers: int, devSold: real)

  /** The checklist sent with an alert. */
  datatype AlertChecks = AlertChecks(dexPaid: bool, devSold: bool, top10: real, devHolding: real)

  /** One notification handed to the notifier. */
  datatype Alert = Alert(token: Token, checks: AlertChecks)

  /** The pipeline's state: the persisted `processed` table, the addresses
      passed to the audit client, and the alerts sent, both in call order. */
  datatype LedgerState = LedgerState(processed: set<string>, audits: seq<string>, alerts: seq<Alert>)

  /** One polling cycle's input: the normalised feed and the audit client's
      answers during that cycle. */
  datatype Poll = Poll(tokens: seq<Token>, audit: string -> Audit)

  /** The dev-sold threshold written into the filter itself. */
  const DevSoldLimit: real := 0.01

  // ---------------------------------------------------------------------
  // Eligibility filter

  /** Python's `all`: every element is true. */
  function All(bs: seq<bool>): bool {
    if bs == [] then true else bs[0] && All(bs[1..])
  }

  lemma {:induction false} AllMeansEvery(bs: seq<bool>)
    ensures All(bs) <==> forall i :: 0 <= i < |bs| ==> bs[i]
  {
    if bs != [] {
      AllMeansEvery(bs[1..]);
      assert forall i :: 1 <= i < |bs| ==> bs[i] == bs[1..][i - 1];
    }
  }

  /** The nine checks, in the order they are listed. */
  function FilterChecks(t: Token, a: Audit): seq<bool> {
    [ t.supply <= MaxSupply,
      t.mcap >= MinMcap,
      t.liq >= MinLiquidity,
      a.top10 <= MaxTop10,
      a.devHolding <= MaxDevHolding,
      t.holders >= MinHolders,
      t.volume >= MinVolume,
      a.devTransfers == 0,
      a.devSold < DevSoldLimit ]
  }

  /** The eligibility predicate: true exactly when all nine conditions hold. */
  function PassesFilters(t: Token, a: Audit): (r: bool)
    ensures r <==>
      && t.supply <= MaxSupply
      && t.mcap >= MinMcap
      && t.liq >= MinLiquidity
      && a.top10 <= MaxTop10
      && a.devHolding <= MaxDevHolding
      && t.holders >= MinHolders
      && t.volume >= MinVolume
      && a.devTransfers == 0
      && a.devSold < DevSoldLimit
  {
    var checks := FilterChecks(t, a);
    AllMeansEvery(checks);
    assert (forall i :: 0 <= i < |checks| ==> checks[i]) <==>
           (checks[0] && checks[1] && checks[2] && checks[3] && checks[4] &&
            checks[5] && checks[6] && checks[7] && checks[8]);
    All(checks)
  }

  /** Values exactly on the inclusive thresholds are accepted. */
  lemma BoundaryValuesPass(t: Token, a: Audit)
    requires t.supply == MaxSupply && t.mcap == MinMcap && t.liq == MinLiquidity
    requires t.holders == MinHolders && t.volume == MinVolume
    requires a.top10 == MaxTop10 && a.devHolding == MaxDevHolding
    requires a.devTransfers == 0 && a.devSold == 0.0
    ensures PassesFilters(t, a)
  {
  }

  /** The two strict checks: a dev-sold share of exactly 0.01 fails, and so
      does any dev transfer count other than 0. */
  lemma StrictChecksReject(t: Token, a: Audit)
    ensures a.devSold == DevSoldLimit ==> !PassesFilters(t, a)
    ensures a.devTransfers != 0 ==> !PassesFilters(t, a)
  {
  }

  /** The filter does not read the address, symbol, markers, locked
      liquidity percentage, previous market cap or url of the token. */
  lemma FiltersIgnoreUnreadFields(t: Token, a: Audit, address: string, symbol: string,
                                  markers: int, lockedLiqPct: real, previousMcap: real, url: string)
    ensures PassesFilters(t, a) == PassesFilters(t.(address := address, symbol := symbol, markers := markers,
                                                    lockedLiqPct := lockedLiqPct, previousMcap := previousMcap, url := url), a)
  {
  }

  /** The checklist sent with an alert. */
  function AlertChecksOf(a: Audit): AlertChecks {
    AlertChecks(dexPaid := false, devSold := a.devSold > DevSoldLimit, top10 := a.top10, devHolding := a.devHolding)
  }

  /** An alert is only sent when the filters pass, and the filters demand a
      dev-sold share below 0.01, so the alert's dev-sold flag is always
      false, and so is its dex-paid flag. */
  lemma AlertFlagsFalse(t: Token, a: Audit)
    requires PassesFilters(t, a)
    ensures !AlertChecksOf(a).devSold && !AlertChecksOf(a).dexPaid
  {
  }

  // ---------------------------------------------------------------------
  // Decisions and the processed ledger

  /** Processing one token: audit it, alert if it passes the filters, and in
      both cases mark its address processed. */
  function Decide(s: LedgerState, t: Token, a: Audit): LedgerState {
    LedgerState(
      s.processed + {t.address},
      s.audits + [t.address],
      if PassesFilters(t, a) then s.alerts + [Alert(t, AlertChecksOf(a))] else s.alerts)
  }

  /** A decision marks the token's address processed whether or not it
      alerts, marks nothing else, and alerts exactly when the filters pass. */
  lemma DecideEffect(s: LedgerState, t: Token, a: Audit)
    ensures Decide(s, t, a).processed - s.processed <= {t.address}
    ensures t.address in Decide(s, t, a).processed
    ensures s.processed <= Decide(s, t, a).processed
    ensures Decide(s, t, a).audits == s.audits + [t.address]
    ensures PassesFilters(t, a) ==> Decide(s, t, a).alerts == s.alerts + [Alert(t, AlertChecksOf(a))]
    ensures !PassesFilters(t, a) ==> Decide(s, t, a).alerts == s.alerts
  {
  }

  /** One iteration of the cycle's loop: a token whose address is already
      processed is skipped; any other token is decided. */
  function Step(s: LedgerState, t: Token, audit: string -> Audit): LedgerState {
    if t.address in s.processed then s else Decide(s, t, audit(t.address))
  }

  /** One polling cycle over the batch `tokens`. */
  function Cycle(s: LedgerState, tokens: seq<Token>, audit: string -> Audit): LedgerState {
    if tokens == [] then s
    else Step(Cycle(s, tokens[..|tokens| - 1], audit), tokens[|tokens| - 1], audit)
  }

  /** A finite sequence of polling cycles. */
  function Run(s: LedgerState, polls: seq<Poll>): LedgerState {
    if polls == [] then s
    else
      var last := polls[|polls| - 1];
      Cycle(Run(s, polls[..|polls| - 1]), last.tokens, last.audit)
  }

  /** The addresses listed in a batch. */
  function Addresses(tokens: seq<Token>): set<string> {
    set i | 0 <= i < |tokens| :: tokens[i].address
  }

  /** The ledger invariant. Every audited address is processed, no address
      is audited twice, every alert follows an audit of its address, no
      address is alerted twice, and no alert says the dev sold. */
  ghost predicate Inv(s: LedgerState) {
    && (forall i :: 0 <= i < |s.audits| ==> s.audits[i] in s.processed)
    && (forall i, j :: 0 <= i < j < |s.audits| ==> s.audits[i] != s.audits[j])
    && (forall i :: 0 <= i < |s.alerts| ==> s.alerts[i].token.address in s.audits)
    && (forall i, j :: 0 <= i < j < |s.alerts| ==> s.alerts[i].token.address != s.alerts[j].token.address)
    && (forall i :: 0 <= i < |s.alerts| ==> !s.alerts[i].checks.devSold)
  }

  /** A bot starting from any persisted table, with nothing audited or
      alerted yet, satisfies the invariant. */
  lemma InitialInv(persisted: set<string>)
    ensures Inv(LedgerState(persisted, [], []))
  {
  }

  lemma StepKeepsInv(s: LedgerState, t: Token, audit: string -> Audit)
    requires Inv(s)
    ensures Inv(Step(s, t, audit))
  {
    if t.address !in s.processed {
      var a := audit(t.address);
      var s' := Decide(s, t, a);
      assert t.address !in s.audits;
      forall i | 0 <= i < |s'.alerts|
        ensures s'.alerts[i].token.address in s'.audits && !s'.alerts[i].checks.devSold
      {
        if i == |s.alerts| {
          AlertFlagsFalse(t, a);
        } else {
          assert s'.alerts[i] == s.alerts[i];
        }
      }
      forall i, j | 0 <= i < j < |s'.alerts|
        ensures s'.alerts[i].token.address != s'.alerts[j].token.address
      {
        if j == |s.alerts| {
          assert s.alerts[i].token.address in s.audits;
        }
      }
    }
  }

  lemma {:induction false} CycleKeepsInv(s: LedgerState, tokens: seq<Token>, audit: string -> Audit)
    requires Inv(s)
    ensures Inv(Cycle(s, tokens, audit))
  {
    if tokens != [] {
      CycleKeepsInv(s, tokens[..|tokens| - 1], audit);
      StepKeepsInv(Cycle(s, tokens[..|tokens| - 1], audit), tokens[|tokens| - 1], audit);
    }
  }

  /** Across any sequence of cycles every address is audited at most once
      and alerted at most once. */
  lemma {:induction false} RunKeepsInv(s: LedgerState, polls: seq<Poll>)
    requires Inv(s)
    ensures Inv(Run(s, polls))
  {
    if polls != [] {
      RunKeepsInv(s, polls[..|polls| - 1]);
      var last := polls[|polls| - 1];
      CycleKeepsInv(Run(s, polls[..|polls| - 1]), last.tokens, last.audit);
    }
  }

  /** What one cycle does: every address of the batch ends up processed and
      nothing else is added; the audit and alert logs only grow; the audits
      made in the cycle are exactly of the batch's addresses that were not
      processed before, one per address, even when the batch repeats one. */
  lemma {:induction false} CycleEffect(s: LedgerState, tokens: seq<Token>, audit: string -> Audit)
    ensures Cycle(s, tokens, audit).processed == s.processed + Addresses(tokens)
    ensures s.audits <= Cycle(s, tokens, audit).audits
    ensures s.alerts <= Cycle(s, tokens, audit).alerts
    ensures forall k :: |s.audits| <= k < |Cycle(s, tokens, audit).audits| ==>
              Cycle(s, tokens, audit).audits[k] in Addresses(tokens) - s.processed
    ensures forall x :: x in Addresses(tokens) - s.processed ==> x in Cycle(s, tokens, audit).audits
  {
    if tokens != [] {
      var init, t := tokens[..|tokens| - 1], tokens[|tokens| - 1];
      var c := Cycle(s, init, audit);
      CycleEffect(s, init, audit);
      assert Addresses(tokens) == Addresses(init) + {t.address} by {
        forall x | x in Addresses(tokens) ensures x in Addresses(init) + {t.address} {
          var i :| 0 <= i < |tokens| && tokens[i].address == x;
          if i < |init| { assert init[i] == tokens[i]; }
        }
        forall x | x in Addresses(init) ensures x in Addresses(tokens) {
          var i :| 0 <= i < |init| && init[i].address == x;
          assert tokens[i] == init[i];
        }
        assert tokens[|tokens| - 1] == t;
      }
      if t.address !in c.processed {
        DecideEffect(c, t, audit(t.address));
      }
    }
  }

  /** A batch whose addresses are all processed changes nothing: no audit
      call and no alert. */
  lemma {:induction false} CycleSkipsProcessed(s: LedgerState, tokens: seq<Token>, audit: string -> Audit)
    requires forall i :: 0 <= i < |tokens| ==> tokens[i].address in s.processed
    ensures Cycle(s, tokens, audit) == s
  {
    if tokens != [] {
      CycleSkipsProcessed(s, tokens[..|tokens| - 1], audit);
    }
  }

  /** When a batch lists an address twice, the later occurrence is skipped:
      its loop iteration leaves the state as it was, because the first
      occurrence marked the address. */
  lemma RepeatedAddressSkipped(s: LedgerState, tokens: seq<Token>, audit: string -> Audit, i: nat, j: nat)
    requires i < j < |tokens| && tokens[i].address == tokens[j].address
    ensures Step(Cycle(s, tokens[..j], audit), tokens[j], audit) == Cycle(s, tokens[..j], audit)
  {
    CycleEffect(s, tokens[..j], audit);
    assert tokens[..j][i] == tokens[i];
    assert tokens[i].address in Addresses(tokens[..j]);
  }

  /** Running the same batch again, with any audit answers, changes nothing. */
  lemma CycleIdempotent(s: LedgerState, tokens: seq<Token>, audit1: string -> Audit, audit2: string -> Audit)
    ensures Cycle(Cycle(s, tokens, audit1), tokens, audit2) == Cycle(s, tokens, audit1)
  {
    CycleEffect(s, tokens, audit1);
    var c := Cycle(s, tokens, audit1);
    forall i | 0 <= i < |tokens| ensures tokens[i].address in c.processed {
      assert tokens[i].address in Addresses(tokens);
    }
    CycleSkipsProcessed(c, tokens, audit2);
  }

  /** Across cycles the processed table only grows, the logs only grow, and
      an address already processed beforehand is never audited or alerted. */
  lemma {:induction false} RunOnlyGrows(s: LedgerState, polls: seq<Poll>)
    ensures s.processed <= Run(s, polls).processed
    ensures s.audits <= Run(s, polls).audits
    ensures s.alerts <= Run(s, polls).alerts
    ensures forall k :: |s.audits| <= k < |Run(s, polls).audits| ==> Run(s, polls).audits[k] !in s.processed
  {
    if polls != [] {
      var init, last := polls[..|polls| - 1], polls[|polls| - 1];
      var r := Run(s, init);
      RunOnlyGrows(s, init);
      CycleEffect(r, last.tokens, last.audit);
      var c := Cycle(r, last.tokens, last.audit);
      assert c.audits[..|r.audits|] == r.audits;
      forall k | |s.audits| <= k < |c.audits| ensures c.audits[k] !in s.processed {
        if k < |r.audits| {
          assert c.audits[k] == r.audits[k];
        }
      }
    }
  }

  /** A bot that starts from a persisted table never alerts for an address
      already in it, and alerts at most once for every other address. */
  lemma AlertsAtMostOnce(persisted: set<string>, polls: seq<Poll>)
    ensures var r := Run(LedgerState(persisted, [], []), polls);
      && (forall i :: 0 <= i < |r.alerts| ==> r.alerts[i].token.address !in persisted)
      && (forall i, j :: 0 <= i < j < |r.alerts| ==> r.alerts[i].token.address != r.alerts[j].token.address)
  {
    var s := LedgerState(persisted, [], []);
    InitialInv(persisted);
    RunKeepsInv(s, polls);
    RunOnlyGrows(s, polls);
    var r := Run(s, polls);
    forall i | 0 <= i < |r.alerts| ensures r.alerts[i].token.address !in persisted {
      var a := r.alerts[i].token.address;
      assert a in r.audits;
      var k :| 0 <= k < |r.audits| && r.audits[k] == a;
      assert |s.audits| <= k;
    }
  }

  // ---------------------------------------------------------------------
  // The bot

  class MemeTrackerBot {
    /** The persisted `processed` table, keyed by address. */
    var processed: set<string>
    /** Addresses passed to the audit client, in call order. */
    ghost var audits: seq<string>
    /** Alerts handed to the notifier, in call order. */
    ghost var alerts: seq<Alert>

    ghost function State(): LedgerState
      reads this
    {
      LedgerState(processed, audits, alerts)
    }

    /** Opening the store: the table keeps what earlier runs persisted. */
    constructor (persisted: set<string>)
      ensures State() == LedgerState(persisted, [], [])
    {
      processed := persisted;
      audits := [];
      alerts := [];
    }

    /** Whether the table holds the address. */
    method IsProcessed(address: string) returns (b: bool)
      ensures b <==> address in processed
    {
      b := address in processed;
    }

    /** Inserts the address. The key is unique: inserting an address that is
        already present is refused (`inserted` is false) and changes nothing. */
    method MarkProcessed(address: string) returns (inserted: bool)
      modifies this`processed
      ensures inserted <==> address !in old(processed)
      ensures processed == old(processed) + {address}
    {
      inserted := address !in processed;
      if inserted {
        processed := processed + {address};
      }
    }

    /** Audits the token, alerts if it passes the filters, then marks its
        address processed. Called only for addresses not yet processed. */
    method ProcessToken(t: Token, audit: string -> Audit)
      requires t.address !in processed
      modifies this
      ensures State() == Decide(old(State()), t, audit(t.address))
    {
      var a := audit(t.address);
      audits := audits + [t.address];
      if PassesFilters(t, a) {
        alerts := alerts + [Alert(t, AlertChecksOf(a))];
      }
      var inserted := MarkProcessed(t.address);
      assert inserted;
    }

    /** One iteration of the polling loop over the fetched batch. */
    method RunCycle(tokens: seq<Token>, audit: string -> Audit)
      modifies this
      ensures State() == Cycle(old(State()), tokens, audit)
    {
      for i := 0 to |tokens|
        invariant State() == Cycle(old(State()), tokens[..i], audit)
      {
        assert tokens[..i + 1][..i] == tokens[..i];
        var done := IsProcessed(tokens[i].address);
        if !done {
          ProcessToken(tokens[i], audit);
        }
      }
      assert tokens[..|tokens|] == tokens;
    }
  }
}
