/** The record normaliser of the DexScreener scanner: it turns the loosely
    typed records of the token feed into canonical token records, in order.
    A feed record is a dictionary whose keys may be missing; each key is an
    `Option` here. Numeric values are exact reals (Python's `Decimal`). */
module DexProcessor {
  import opened Wrappers

  /** The nested `analysis` object of a feed record. */
  datatype Analysis = Analysis(markers: Option<int>)

  /** One raw record of the feed, every key possibly absent. */
  datatype RawToken = RawToken(
    address: Option<string>,
    symbol: Option<string>,
    marketCap: Option<real>,
    liquidity: Option<real>,
    volume24h: Option<real>,
    holders: Option<int>,
    totalSupply: Option<real>,
    lockedLiquidity: Option<real>,
    analysis: Option<Analysis>)

  /** The canonical token record handed to the evaluation pipeline. */
  datatype Token = Token(
    address: string,
    symbol: string,
    mcap: real,
    liq: real,
    volume: real,
    holders: int,
    supply: real,
    lockedLiqPct: real,
    markers: int,
    url: string,
    previousMcap: real)

  /** The exception raised when a mandatory key is missing from a record. */
  datatype KeyError = KeyError(key: string)

  const DexUrlPrefix: string := "https://dexscreener.com/solana/"

  /** A record the normaliser accepts: both mandatory keys are present. */
  predicate WellFormed(t: RawToken) {
    t.address.Some? && t.symbol.Some?
  }

  /** Percentage of the liquidity that is locked. An absent liquidity uses
      divisor 1; a liquidity that is zero or negative gives 0, so the
      division is never by zero. */
  function CalcLockedPct(t: RawToken): (r: real)
    ensures t.liquidity.Some? && t.liquidity.value > 0.0 ==>
              r == t.lockedLiquidity.GetOr(0.0) / t.liquidity.value * 100.0
    ensures t.liquidity.Some? && t.liquidity.value <= 0.0 ==> r == 0.0
    ensures t.liquidity.None? ==> r == t.lockedLiquidity.GetOr(0.0) * 100.0
  {
    var locked := t.lockedLiquidity.GetOr(0.0);
    var total := t.liquidity.GetOr(1.0);
    if total > 0.0 then locked / total * 100.0 else 0.0
  }

  /** With neither liquidity key present the percentage is 0. */
  lemma LockedPctBothAbsent(t: RawToken)
    requires t.liquidity.None? && t.lockedLiquidity.None?
    ensures CalcLockedPct(t) == 0.0
  {
  }

  /** When both values are present and the locked amount lies between 0 and
      the liquidity, the percentage lies between 0 and 100. */
  lemma LockedPctWithinRange(t: RawToken)
    requires t.liquidity.Some? && t.lockedLiquidity.Some?
    requires 0.0 <= t.lockedLiquidity.value <= t.liquidity.value
    ensures 0.0 <= CalcLockedPct(t) <= 100.0
  {
    var locked, total := t.lockedLiquidity.value, t.liquidity.value;
    if total > 0.0 {
      assert locked / total <= 1.0 by {
        assert locked / total * total == locked;
      }
    }
  }

  /** The percentage is not clamped: a locked amount above the liquidity, or
      any locked amount above 1 with the liquidity key absent, gives more
      than 100. */
  lemma LockedPctUnclamped()
    ensures CalcLockedPct(RawToken(Some("a"), Some("A"), None, Some(10.0), None, None, None, Some(20.0), None)) == 200.0
    ensures CalcLockedPct(RawToken(Some("a"), Some("A"), None, None, None, None, None, Some(5.0), None)) == 500.0
  {
  }

  /** One loop iteration of the normaliser: the record it appends, or the
      KeyError it raises. The `address` key is read before `symbol`. */
  function Normalize(t: RawToken): (r: Result<Token, KeyError>)
    ensures r.Success? <==> WellFormed(t)
    ensures t.address.None? ==> r == Failure(KeyError("address"))
    ensures t.address.Some? && t.symbol.None? ==> r == Failure(KeyError("symbol"))
    ensures r.Success? ==>
              && r.value.address == t.address.value
              && r.value.symbol == t.symbol.value
              && |r.value.url| == |DexUrlPrefix| + |t.address.value|
              && r.value.url[..|DexUrlPrefix|] == DexUrlPrefix
              && r.value.url[|DexUrlPrefix|..] == t.address.value
              && r.value.previousMcap == 0.0
              && r.value.lockedLiqPct == CalcLockedPct(t)
  {
    if t.address.None? then Failure(KeyError("address"))
    else if t.symbol.None? then Failure(KeyError("symbol"))
    else
      Success(Token(
        address := t.address.value,
        symbol := t.symbol.value,
        mcap := t.marketCap.GetOr(0.0),
        liq := t.liquidity.GetOr(0.0),
        volume := t.volume24h.GetOr(0.0),
        holders := t.holders.GetOr(0),
        supply := t.totalSupply.GetOr(0.0),
        lockedLiqPct := CalcLockedPct(t),
        markers := if t.analysis.Some? then t.analysis.value.markers.GetOr(0) else 0,
        url := DexUrlPrefix + t.address.value,
        previousMcap := 0.0))
  }

  /** Absent numeric keys read as 0, present ones are taken as they are;
      `markers` is 0 when either `analysis` or its `markers` key is absent. */
  lemma NormalizeNumericDefaults(t: RawToken)
    requires WellFormed(t)
    ensures var n := Normalize(t).value;
      && n.mcap == (if t.marketCap.Some? then t.marketCap.value else 0.0)
      && n.liq == (if t.liquidity.Some? then t.liquidity.value else 0.0)
      && n.volume == (if t.volume24h.Some? then t.volume24h.value else 0.0)
      && n.holders == (if t.holders.Some? then t.holders.value else 0)
      && n.supply == (if t.totalSupply.Some? then t.totalSupply.value else 0.0)
      && n.markers == (if t.analysis.Some? && t.analysis.value.markers.Some? then t.analysis.value.markers.value else 0)
  {
  }

  /** Two normalised records with the same url have the same address: the
      url determines the address it was built from. */
  lemma UrlDeterminesAddress(a: RawToken, b: RawToken)
    requires WellFormed(a) && WellFormed(b)
    requires Normalize(a).value.url == Normalize(b).value.url
    ensures a.address == b.address
  {
    var ua, ub := Normalize(a).value.url, Normalize(b).value.url;
    assert a.address.value == ua[|DexUrlPrefix|..];
    assert b.address.value == ub[|DexUrlPrefix|..];
  }

  /** The whole batch: the records in order, or the first KeyError raised,
      which aborts the batch. */
  function NormalizeAll(raw: seq<RawToken>): Result<seq<Token>, KeyError>
  {
    if raw == [] then Success([])
    else
      match NormalizeAll(raw[..|raw| - 1])
      case Failure(e) => Failure(e)
      case Success(ts) =>
        match Normalize(raw[|raw| - 1])
        case Failure(e) => Failure(e)
        case Success(t) => Success(ts + [t])
  }

  /** The batch succeeds exactly when every record is well formed, and then
      it has one record per input record, in the same order. */
  lemma {:induction false} NormalizeAllElementwise(raw: seq<RawToken>)
    ensures NormalizeAll(raw).Success? <==> forall i :: 0 <= i < |raw| ==> WellFormed(raw[i])
    ensures NormalizeAll(raw).Success? ==>
              && |NormalizeAll(raw).value| == |raw|
              && forall i :: 0 <= i < |raw| ==> Normalize(raw[i]) == Success(NormalizeAll(raw).value[i])
  {
    if raw != [] {
      var init := raw[..|raw| - 1];
      NormalizeAllElementwise(init);
      assert forall i :: 0 <= i < |init| ==> init[i] == raw[i];
    }
  }

  /** A failed batch fails with the KeyError of its first malformed record. */
  lemma {:induction false} NormalizeAllFirstError(raw: seq<RawToken>)
    requires NormalizeAll(raw).Failure?
    ensures exists i :: 0 <= i < |raw| && !WellFormed(raw[i])
              && (forall j :: 0 <= j < i ==> WellFormed(raw[j]))
              && Normalize(raw[i]) == Failure(NormalizeAll(raw).error)
  {
    var init := raw[..|raw| - 1];
    assert forall j :: 0 <= j < |init| ==> init[j] == raw[j];
    if NormalizeAll(init).Failure? {
      NormalizeAllFirstError(init);
      var i :| 0 <= i < |init| && !WellFormed(init[i])
                && (forall j :: 0 <= j < i ==> WellFormed(init[j]))
                && Normalize(init[i]) == Failure(NormalizeAll(init).error);
      assert raw[i] == init[i];
    } else {
      NormalizeAllElementwise(init);
      var i := |raw| - 1;
      assert forall j :: 0 <= j < i ==> WellFormed(raw[j]) by {
        forall j | 0 <= j < i ensures WellFormed(raw[j]) {
          assert WellFormed(init[j]);
        }
      }
    }
  }

  /** A malformed record after a well-formed prefix decides the batch's error. */
  lemma {:induction false} NormalizeAllFailsAt(raw: seq<RawToken>, i: nat)
    requires i < |raw|
    requires NormalizeAll(raw[..i]).Success?
    requires Normalize(raw[i]).Failure?
    ensures NormalizeAll(raw) == Failure(Normalize(raw[i]).error)
  {
    var init := raw[..|raw| - 1];
    if i == |raw| - 1 {
      assert init == raw[..i];
    } else {
      assert init[..i] == raw[..i];
      assert init[i] == raw[i];
      NormalizeAllFailsAt(init, i);
    }
  }

  /** The normaliser's loop: appends the normalised record of each feed
      record in turn and stops at the first missing mandatory key. */
  method ProcessData(raw: seq<RawToken>) returns (r: Result<seq<Token>, KeyError>)
    ensures r == NormalizeAll(raw)
  {
    var processed: seq<Token> := [];
    for i := 0 to |raw|
      invariant NormalizeAll(raw[..i]) == Success(processed)
    {
      var t := raw[i];
      assert raw[..i + 1][..i] == raw[..i];
      if t.address.None? {
        NormalizeAllFailsAt(raw, i);
        return Failure(KeyError("address"));
      }
      if t.symbol.None? {
        NormalizeAllFailsAt(raw, i);
        return Failure(KeyError("symbol"));
      }
      var n := Normalize(t).value;
      processed := processed + [n];
    }
    assert raw[..|raw|] == raw;
    r := Success(processed);
  }
}
