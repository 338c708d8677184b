/**
 * From an XRPL payment to the transfer it entitles to: the memo recipient, the burn check
 * against the ledger metadata, and the amount conversion.
 */
module Finder {
  import opened Prelude
  import opened Rational
  import opened ContractModel

  /** A delivered amount; `native` marks XRP. */
  datatype Amount = Amount(value: Rat, currency: string, issuer: string, native: bool)

  /** One balance of an account as changed by a transaction. */
  datatype BalanceChange = BalanceChange(currency: string, counterParty: string, balance: real, change: real)

  /** `balances` are the balance changes computed from the metadata, or the failure to compute them. */
  datatype XrplTx = XrplTx(
    hash: string, ledger: int, validated: bool, result: string, kind: string, date: int,
    memos: seq<string>, delivered: Amount, destination: string,
    balances: Result<map<string, seq<BalanceChange>>, ()>)

  /** Text decoders the relayer takes from libraries: bech32 addresses, fractions and currency codes. */
  datatype Codec = Codec(
    address: string -> Option<string>,
    fraction: string -> Option<Rat>,
    currency: string -> string)

  datatype FinderConfig = FinderConfig(
    issuer: string, currency: string, activationDate: int, multiplier: string,
    memoSuffix: string, denom: string, decimals: int)

  /** Settings shared by all finders of a relayer. */
  datatype Settings = Settings(memoSuffix: string, denom: string, decimals: int)

  /** The finder a relayer creates for a configured token. */
  function FinderOf(codec: Codec, settings: Settings, t: XrplToken): FinderConfig {
    FinderConfig(t.issuer, codec.currency(t.currency), t.activationDate, t.multiplier,
                 settings.memoSuffix, settings.denom, settings.decimals)
  }

  /** No two configured tokens denote the same issuer and currency once decoded. */
  ghost predicate DistinctTokens(codec: Codec, tokens: seq<XrplToken>) {
    forall t, u :: t in tokens && u in tokens && t.issuer == u.issuer && codec.currency(t.currency) == codec.currency(u.currency)
      ==> t == u
  }

  datatype PendingSend = PendingSend(destination: string, amount: Coin, hash: string)

  const SUCCESS := "tesSUCCESS"
  const PAYMENT := "Payment"

  // ---------- memo ----------

  predicate HasSuffix(s: string, suffix: string) {
    |suffix| <= |s| && s[|s| - |suffix|..] == suffix
  }

  /** The address a memo names, if it carries the suffix and decodes. */
  function MemoAddress(codec: Codec, memo: string, suffix: string): Option<string> {
    if HasSuffix(memo, suffix) then codec.address(memo[..|memo| - |suffix|]) else None
  }

  function FirstAddress(codec: Codec, memos: seq<string>, suffix: string): Option<string> {
    if memos == [] then None
    else if MemoAddress(codec, memos[0], suffix).Some? then MemoAddress(codec, memos[0], suffix)
    else FirstAddress(codec, memos[1..], suffix)
  }

  method ExtractAddressFromMemo(codec: Codec, memos: seq<string>, suffix: string) returns (r: Option<string>)
    ensures r == FirstAddress(codec, memos, suffix)
  {
    for i := 0 to |memos|
      invariant FirstAddress(codec, memos, suffix) == FirstAddress(codec, memos[i..], suffix)
    {
      if !HasSuffix(memos[i], suffix) {
        continue;
      }
      var address := codec.address(memos[i][..|memos[i]| - |suffix|]);
      if address.None? {
        continue;
      }
      return address;
    }
    return None;
  }

  /** The recipient is the one of the first memo that names a valid address; there is none only if no memo does. */
  lemma {:induction false} FirstAddressMeaning(codec: Codec, memos: seq<string>, suffix: string)
    ensures match FirstAddress(codec, memos, suffix)
      case None => forall i :: 0 <= i < |memos| ==> MemoAddress(codec, memos[i], suffix).None?
      case Some(a) => exists i :: 0 <= i < |memos| && MemoAddress(codec, memos[i], suffix) == Some(a)
                        && forall j :: 0 <= j < i ==> MemoAddress(codec, memos[j], suffix).None?
  {
    if memos != [] && MemoAddress(codec, memos[0], suffix).None? {
      FirstAddressMeaning(codec, memos[1..], suffix);
      var rest := FirstAddress(codec, memos[1..], suffix);
      if rest.Some? {
        var i :| 0 <= i < |memos[1..]| && MemoAddress(codec, memos[1..][i], suffix) == rest
                 && forall j :: 0 <= j < i ==> MemoAddress(codec, memos[1..][j], suffix).None?;
        assert memos[i + 1] == memos[1..][i];
        assert forall j :: 0 < j < i + 1 ==> memos[j] == memos[1..][j - 1];
      } else {
        assert forall j :: 0 < j < |memos| ==> memos[j] == memos[1..][j - 1];
      }
    }
  }

  // ---------- conversion ----------

  /** An absent, zero or empty multiplier counts as one; an unreadable one gives nothing. */
  function Multiplier(codec: Codec, multiplier: string): Option<Rat> {
    var text := if |multiplier| == 0 || multiplier == "0" then "1.0" else multiplier;
    match codec.fraction(text)
    case None => None
    case Some(m) => if m.num == 0 then Some(Fraction(1, 1)) else Some(m)
  }

  function Convert(codec: Codec, amount: Option<Rat>, decimals: int, multiplier: string): int {
    match (amount, Multiplier(codec, multiplier))
    case (Some(a), Some(m)) => Quo(Pow10(decimals) * Mul(a, m).num, Mul(a, m).den)
    case _ => 0
  }

  /** The scaled product before division, over the unreduced denominator. */
  function Scaled(a: Rat, m: Rat, decimals: int): int {
    Pow10(decimals) * (a.num * m.num)
  }

  /** Whatever the reduction of the fraction, the result is the floor of amount * multiplier * 10^decimals. */
  lemma ConvertIsFloor(codec: Codec, a: Rat, decimals: int, multiplier: string, m: Rat)
    requires Multiplier(codec, multiplier) == Some(m) && a.num >= 0 && m.num >= 0
    ensures var r := Convert(codec, Some(a), decimals, multiplier);
      r >= 0 && IsFloor(r, Scaled(a, m, decimals), a.den * m.den)
  {
    var p := Mul(a, m);
    assert a.den * m.den > 0 && a.num * m.num >= 0;
    var g := ReduceScales(a.num * m.num, a.den * m.den);
    ReducedSign(g, p.num, a.num * m.num);
    ProductNonNegative(Pow10(decimals), p.num);
    QuoIsFloor(Pow10(decimals) * p.num, p.den);
    var r := Quo(Pow10(decimals) * p.num, p.den);
    FloorScales(r, Pow10(decimals) * p.num, p.den, g);
    ScaledThrough(g, Pow10(decimals), p.num);
  }

  lemma ReducedSign(g: nat, x: int, n: int)
    requires g > 0 && n == g * x && n >= 0
    ensures x >= 0
  {
    ScaleOrder(0, x, g);
  }

  lemma ProductNonNegative(p: nat, x: nat)
    ensures p * x >= 0
  {
  }

  lemma ScaledThrough(g: int, p: int, x: int)
    ensures g * (p * x) == p * (g * x)
  {
  }

  /** A larger burn never converts to less. */
  lemma ConvertMonotone(codec: Codec, a: Rat, b: Rat, decimals: int, multiplier: string, m: Rat)
    requires Multiplier(codec, multiplier) == Some(m) && a.num >= 0 && m.num >= 0 && LessEq(a, b)
    ensures Convert(codec, Some(a), decimals, multiplier) <= Convert(codec, Some(b), decimals, multiplier)
  {
    LessEqSign(a, b);
    ConvertIsFloor(codec, a, decimals, multiplier, m);
    ConvertIsFloor(codec, b, decimals, multiplier, m);
    CrossOrder(a, b, m, Pow10(decimals));
    FloorMonotone(Convert(codec, Some(a), decimals, multiplier), Scaled(a, m, decimals), a.den * m.den,
                  Convert(codec, Some(b), decimals, multiplier), Scaled(b, m, decimals), b.den * m.den);
  }

  lemma LessEqSign(a: Rat, b: Rat)
    requires a.num >= 0 && LessEq(a, b)
    ensures b.num >= 0
  {
    assert a.num * b.den >= 0;
    ScaleOrder(0, b.num, a.den);
  }

  lemma CrossOrder(a: Rat, b: Rat, m: Rat, p: nat)
    requires LessEq(a, b) && m.num >= 0
    ensures (p * (a.num * m.num)) * (b.den * m.den) <= (p * (b.num * m.num)) * (a.den * m.den)
  {
    var k := p * m.num * m.den;
    assert k >= 0;
    assert (p * (a.num * m.num)) * (b.den * m.den) == k * (a.num * b.den);
    assert (p * (b.num * m.num)) * (a.den * m.den) == k * (b.num * a.den);
    assert k * (b.num * a.den - a.num * b.den) >= 0;
  }

  /** Splitting a burn never pays more, and joining burns gains at most one unit. */
  lemma ConvertSplit(codec: Codec, a: Rat, b: Rat, decimals: int, multiplier: string, m: Rat)
    requires Multiplier(codec, multiplier) == Some(m) && a.num >= 0 && b.num >= 0 && m.num >= 0
    ensures var ca, cb := Convert(codec, Some(a), decimals, multiplier), Convert(codec, Some(b), decimals, multiplier);
      ca + cb <= Convert(codec, Some(Add(a, b)), decimals, multiplier) <= ca + cb + 1
  {
    var c := Add(a, b);
    assert c.num >= 0;
    ConvertIsFloor(codec, a, decimals, multiplier, m);
    ConvertIsFloor(codec, b, decimals, multiplier, m);
    ConvertIsFloor(codec, c, decimals, multiplier, m);
    var r := Convert(codec, Some(c), decimals, multiplier);
    var da, db := a.den * m.den, b.den * m.den;
    var na, nb := Scaled(a, m, decimals), Scaled(b, m, decimals);
    FloorScales(r, Scaled(c, m, decimals), c.den * m.den, m.den);
    SumScales(a, b, m, Pow10(decimals));
    FloorOfSum(Convert(codec, Some(a), decimals, multiplier), na, da,
               Convert(codec, Some(b), decimals, multiplier), nb, db, r);
  }

  lemma SumScales(a: Rat, b: Rat, m: Rat, p: nat)
    ensures m.den * (p * ((a.num * b.den + b.num * a.den) * m.num))
         == (p * (a.num * m.num)) * (b.den * m.den) + (p * (b.num * m.num)) * (a.den * m.den)
    ensures m.den * ((a.den * b.den) * m.den) == (a.den * m.den) * (b.den * m.den)
  {
    assert (a.num * b.den + b.num * a.den) * m.num == a.num * b.den * m.num + b.num * a.den * m.num;
  }

  const DECIMAL_UNIT := 1_000_000_000_000_000_000

  /** Contract and relayer read a decimal string as the same number; the empty text is none and "0" is zero. */
  ghost predicate SameDecimals(api: Api, codec: Codec) {
    && api.decimal("").None? && api.decimal("0") == Some(0)
    && forall s :: api.decimal(s).Some? ==>
         && codec.fraction(s).Some?
         && codec.fraction(s).value.num * DECIMAL_UNIT == api.decimal(s).value * codec.fraction(s).value.den
  }

  /** A multiplier the contract accepts lies between one tenth and ten. */
  lemma AcceptedMultiplier(api: Api, codec: Codec, t: XrplToken) returns (m: Rat)
    requires TokenError(api, t).None? && SameDecimals(api, codec)
    ensures Multiplier(codec, t.multiplier) == Some(m) && m.num * DECIMAL_UNIT == api.decimal(t.multiplier).value * m.den
    ensures m.den <= 10 * m.num && m.num <= 10 * m.den
  {
    var n := api.decimal(t.multiplier).value;
    m := codec.fraction(t.multiplier).value;
    assert m.num * DECIMAL_UNIT == n * m.den;
    ScaleOrder(MIN_MULTIPLIER, n, m.den);
    ScaleOrder(n, MAX_MULTIPLIER, m.den);
    assert MIN_MULTIPLIER * m.den <= m.num * DECIMAL_UNIT <= MAX_MULTIPLIER * m.den;
  }

  /** So a transfer is worth at most ten and at least one tenth of the burn, less one unit. */
  lemma ConvertWithinContractBounds(api: Api, codec: Codec, t: XrplToken, a: Rat, decimals: int)
    requires TokenError(api, t).None? && SameDecimals(api, codec) && a.num >= 0
    ensures var r := Convert(codec, Some(a), decimals, t.multiplier);
      && r * a.den <= 10 * (Pow10(decimals) * a.num)
      && Pow10(decimals) * a.num < 10 * ((r + 1) * a.den)
  {
    var m := AcceptedMultiplier(api, codec, t);
    ConvertIsFloor(codec, a, decimals, t.multiplier, m);
    var r, n := Convert(codec, Some(a), decimals, t.multiplier), Pow10(decimals) * a.num;
    MulAssoc(Pow10(decimals), a.num, m.num);
    BoundAbove(r, n, a.den, m);
    BoundBelow(r, n, a.den, m);
  }

  lemma BoundAbove(r: nat, n: int, d: int, m: Rat)
    requires n >= 0 && d > 0 && m.num <= 10 * m.den
    requires r * (d * m.den) <= n * m.num
    ensures r * d <= 10 * n
  {
    assert m.den * (r * d) == r * (d * m.den);
    assert n * (10 * m.den - m.num) >= 0;
    assert n * (10 * m.den) == m.den * (10 * n);
    ScaleOrder(r * d, 10 * n, m.den);
  }

  lemma BoundBelow(r: nat, n: int, d: int, m: Rat)
    requires d > 0 && m.den <= 10 * m.num
    requires n * m.num < (r + 1) * (d * m.den)
    ensures n < 10 * ((r + 1) * d)
  {
    var top := (r + 1) * d;
    MulAssoc(r + 1, d, m.den);
    assert top * (10 * m.num - m.den) >= 0;
    assert top * (10 * m.num) == m.num * (10 * top);
    ScaleOrder(10 * top, n, m.num);
  }

  // ---------- burn check ----------

  const EPSILON := 0.00000000000001

  function AbsReal(x: real): real {
    if x < 0.0 then -x else x
  }

  function MaxReal(x: real, y: real): real {
    if x < y then y else x
  }

  /** The balances that count for the delivered currency. */
  predicate Counts(b: BalanceChange, account: string, delivered: Amount) {
    && b.currency == delivered.currency
    && (delivered.native || delivered.issuer == account || b.counterParty == delivered.issuer)
  }

  function Received(bs: seq<BalanceChange>, account: string, delivered: Amount): real {
    if bs == [] then 0.0
    else
      var b := bs[|bs| - 1];
      Received(bs[..|bs| - 1], account, delivered) + if Counts(b, account, delivered) then b.change else 0.0
  }

  function Magnitude(bs: seq<BalanceChange>, account: string, delivered: Amount): real {
    if bs == [] then 0.0
    else
      var b, m := bs[|bs| - 1], Magnitude(bs[..|bs| - 1], account, delivered);
      if Counts(b, account, delivered) then MaxReal(m, AbsReal(b.balance)) else m
  }

  predicate AnyCounts(bs: seq<BalanceChange>, account: string, delivered: Amount) {
    exists b :: b in bs && Counts(b, account, delivered)
  }

  function Tolerance(bs: seq<BalanceChange>, account: string, delivered: Amount): real {
    if delivered.native then 0.0
    else EPSILON * MaxReal(Magnitude(bs, account, delivered), AbsReal(Real(delivered.value)))
  }

  /** Accepted exactly when some balance counts and the shortfall is within tolerance. */
  predicate Backed(bs: seq<BalanceChange>, account: string, delivered: Amount) {
    && AnyCounts(bs, account, delivered)
    && Real(delivered.value) - Received(bs, account, delivered) <= Tolerance(bs, account, delivered)
  }

  lemma {:induction false} MagnitudeNonNegative(bs: seq<BalanceChange>, account: string, delivered: Amount)
    ensures Magnitude(bs, account, delivered) >= 0.0
  {
    if bs != [] {
      MagnitudeNonNegative(bs[..|bs| - 1], account, delivered);
    }
  }

  lemma ToleranceNonNegative(bs: seq<BalanceChange>, account: string, delivered: Amount)
    ensures Tolerance(bs, account, delivered) >= 0.0
  {
    MagnitudeNonNegative(bs, account, delivered);
  }

  function BalancesOf(balances: map<string, seq<BalanceChange>>, account: string): seq<BalanceChange> {
    if account in balances then balances[account] else []
  }

  /** The verdict on the balance changes of one account. */
  function BurnVerdict(balances: Result<map<string, seq<BalanceChange>>, ()>, account: string, delivered: Amount)
    : Result<bool, ()>
  {
    match balances
    case Err(_) => Err(())
    case Ok(bs) => Ok(Backed(BalancesOf(bs, account), account, delivered))
  }

  method ReceivedAtLeastDelivered(balances: Result<map<string, seq<BalanceChange>>, ()>, account: string, delivered: Amount)
    returns (r: Result<bool, ()>)
    ensures r == BurnVerdict(balances, account, delivered)
  {
    if balances.Err? {
      return Err(());
    }
    if account !in balances.value {
      return Ok(false);
    }
    var bs := balances.value[account];
    var total, found, maxMag := 0.0, false, 0.0;
    for i := 0 to |bs|
      invariant found <==> AnyCounts(bs[..i], account, delivered)
      invariant total == Received(bs[..i], account, delivered)
      invariant maxMag == Magnitude(bs[..i], account, delivered)
    {
      assert bs[..i + 1][..i] == bs[..i];
      AnyCountsStep(bs, i, account, delivered);
      if bs[i].currency != delivered.currency {
        continue;
      }
      if !delivered.native && delivered.issuer != account && bs[i].counterParty != delivered.issuer {
        continue;
      }
      if AbsReal(bs[i].balance) > maxMag {
        maxMag := AbsReal(bs[i].balance);
      }
      if !found {
        NothingCounts(bs[..i], account, delivered);
        total := bs[i].change;
        found := true;
        continue;
      }
      total := total + bs[i].change;
    }
    assert bs[..|bs|] == bs;
    if !found {
      return Ok(false);
    }
    ToleranceNonNegative(bs, account, delivered);
    if total >= Real(delivered.value) {
      return Ok(true);
    }
    if delivered.native {
      return Ok(false);
    }
    var scale := maxMag;
    if AbsReal(Real(delivered.value)) > scale {
      scale := AbsReal(Real(delivered.value));
    }
    return Ok(Real(delivered.value) - total <= scale * EPSILON);
  }

  lemma AnyCountsStep(bs: seq<BalanceChange>, i: nat, account: string, delivered: Amount)
    requires i < |bs|
    ensures AnyCounts(bs[..i + 1], account, delivered)
       <==> AnyCounts(bs[..i], account, delivered) || Counts(bs[i], account, delivered)
  {
    assert bs[..i + 1] == bs[..i] + [bs[i]];
    assert bs[i] in bs[..i + 1];
  }

  lemma {:induction false} NothingCounts(bs: seq<BalanceChange>, account: string, delivered: Amount)
    requires !AnyCounts(bs, account, delivered)
    ensures Received(bs, account, delivered) == 0.0
  {
    if bs != [] {
      var n := |bs| - 1;
      assert bs[n] in bs;
      assert forall b :: b in bs[..n] ==> b in bs;
      NothingCounts(bs[..n], account, delivered);
    }
  }

  lemma {:induction false} TotalsConcat(a: seq<BalanceChange>, b: seq<BalanceChange>, account: string, delivered: Amount)
    ensures Received(a + b, account, delivered) == Received(a, account, delivered) + Received(b, account, delivered)
    ensures Magnitude(a + b, account, delivered)
         == MaxReal(Magnitude(a, account, delivered), Magnitude(b, account, delivered))
    decreases |b|
  {
    if b == [] {
      assert a + b == a;
      MagnitudeNonNegative(a, account, delivered);
    } else {
      var n := |b| - 1;
      assert (a + b)[..|a + b| - 1] == a + b[..n];
      TotalsConcat(a, b[..n], account, delivered);
    }
  }

  /** Sum and maximum with one balance moved to the end. */
  lemma MoveToEnd(bs: seq<BalanceChange>, j: nat, account: string, delivered: Amount)
    requires j < |bs|
    ensures var moved := (bs[..j] + bs[j + 1..]) + [bs[j]];
      && Received(bs, account, delivered) == Received(moved, account, delivered)
      && Magnitude(bs, account, delivered) == Magnitude(moved, account, delivered)
  {
    var l, x, r := bs[..j], [bs[j]], bs[j + 1..];
    assert bs == l + (x + r);
    TotalsConcat(l, x + r, account, delivered);
    TotalsConcat(x, r, account, delivered);
    TotalsConcat(l, r, account, delivered);
    TotalsConcat(l + r, x, account, delivered);
  }

  /** Removing one occurrence from both sides of equal multisets. */
  lemma RemoveOne(a: seq<BalanceChange>, b: seq<BalanceChange>) returns (j: nat)
    requires a != [] && multiset(a) == multiset(b)
    ensures j < |b| && b[j] == a[|a| - 1]
    ensures multiset(a[..|a| - 1]) == multiset(b[..j] + b[j + 1..])
  {
    var n := |a| - 1;
    var x := a[n];
    assert x in multiset(b);
    j :| 0 <= j < |b| && b[j] == x;
    assert a == a[..n] + [x];
    assert b == b[..j] + [x] + b[j + 1..];
    assert multiset(b) == multiset(b[..j]) + multiset{x} + multiset(b[j + 1..]);
    assert multiset(a) == multiset(a[..n]) + multiset{x};
    assert multiset(b[..j] + b[j + 1..]) == multiset(b[..j]) + multiset(b[j + 1..]);
    assert multiset(a[..n]) == multiset(a) - multiset{x};
  }

  lemma {:induction false} TotalsOrderFree(a: seq<BalanceChange>, b: seq<BalanceChange>, account: string, delivered: Amount)
    requires multiset(a) == multiset(b)
    ensures Received(a, account, delivered) == Received(b, account, delivered)
    ensures Magnitude(a, account, delivered) == Magnitude(b, account, delivered)
    decreases |a|
  {
    if a == [] {
      assert |multiset(b)| == 0;
    } else {
      var j := RemoveOne(a, b);
      var rest := b[..j] + b[j + 1..];
      TotalsOrderFree(a[..|a| - 1], rest, account, delivered);
      MoveToEnd(b, j, account, delivered);
      assert (rest + [b[j]])[..|rest|] == rest;
    }
  }

  /** The verdict does not depend on the order of the balances. */
  lemma BackedOrderFree(a: seq<BalanceChange>, b: seq<BalanceChange>, account: string, delivered: Amount)
    requires multiset(a) == multiset(b)
    ensures Backed(a, account, delivered) <==> Backed(b, account, delivered)
  {
    TotalsOrderFree(a, b, account, delivered);
    assert forall x :: x in a <==> x in multiset(a);
    assert forall x :: x in b <==> x in multiset(b);
  }

  // ---------- the decision ----------

  /** The transfer a payment entitles to, if any. A negative conversion would abort, so it emits nothing either. */
  function BuildPending(codec: Codec, cfg: FinderConfig, tx: XrplTx): Option<PendingSend> {
    if !tx.validated || tx.result != SUCCESS || tx.kind != PAYMENT then None
    else if tx.date < cfg.activationDate then None
    else if |tx.memos| == 0 then None
    else
      match FirstAddress(codec, tx.memos, cfg.memoSuffix)
      case None => None
      case Some(destination) =>
        if tx.delivered.native then None
        else if tx.delivered.currency != cfg.currency || tx.delivered.issuer != cfg.issuer then None
        else if tx.destination != cfg.issuer then None
        else if tx.balances.Err? || !Backed(BalancesOf(tx.balances.value, cfg.issuer), cfg.issuer, tx.delivered) then None
        else
          var n := Convert(codec, Some(tx.delivered.value), cfg.decimals, cfg.multiplier);
          if n <= 0 then None else Some(PendingSend(destination, Coin(cfg.denom, n), tx.hash))
  }

  /** What the metadata shows as returned to the issuer. */
  function Burned(tx: XrplTx): real {
    if tx.balances.Err? then 0.0
    else Received(BalancesOf(tx.balances.value, tx.destination), tx.destination, tx.delivered)
  }

  function BurnTolerance(tx: XrplTx): real {
    if tx.balances.Err? then 0.0
    else Tolerance(BalancesOf(tx.balances.value, tx.destination), tx.destination, tx.delivered)
  }

  /** The exact value of a burn of `x` tokens: 10^decimals * multiplier * x. */
  function Worth(decimals: int, m: Rat, x: real): real {
    Pow10(decimals) as real * Real(m) * x
  }

  lemma FloorToReal(r: int, a: Rat, m: Rat, p: nat)
    requires IsFloor(r, p * (a.num * m.num), a.den * m.den)
    ensures r as real <= p as real * Real(m) * Real(a)
  {
    var d := a.den * m.den;
    assert d > 0;
    assert (r * d) as real <= (p * (a.num * m.num)) as real;
    RealProduct(r, d);
    RealProduct(a.den, m.den);
    RealProduct(p, a.num * m.num);
    RealProduct(a.num, m.num);
    var rd := d as real;
    assert Real(a) * (a.den as real) == a.num as real;
    assert Real(m) * (m.den as real) == m.num as real;
    CancelReal(p as real, Real(a), a.den as real, Real(m), m.den as real);
    RealOrder(r as real, p as real * Real(m) * Real(a), rd);
  }

  lemma ScaledToReal(r: int, a: Rat, m: Rat, decimals: int)
    requires IsFloor(r, Scaled(a, m, decimals), a.den * m.den)
    ensures r as real <= Worth(decimals, m, Real(a))
  {
    FloorToReal(r, a, m, Pow10(decimals));
  }

  lemma CancelReal(p: real, x: real, dx: real, y: real, dy: real)
    ensures (dx * dy) * (p * y * x) == p * ((x * dx) * (y * dy))
  {
  }

  /** Every emitted transfer is covered by the burn: amount <= 10^decimals * multiplier * (burned + tolerance). */
  lemma BurnBacking(codec: Codec, cfg: FinderConfig, tx: XrplTx, m: Rat)
    requires BuildPending(codec, cfg, tx).Some?
    requires Multiplier(codec, cfg.multiplier) == Some(m) && m.num >= 0
    ensures BuildPending(codec, cfg, tx).value.amount.amount as real
         <= Worth(cfg.decimals, m, Burned(tx) + BurnTolerance(tx))
  {
    Emitted(codec, cfg, tx);
    if tx.delivered.value.num < 0 {
      NegativeConvertsToNothing(codec, tx.delivered.value, cfg.decimals, cfg.multiplier, m);
      assert false;
    }
    ConvertReal(codec, tx.delivered.value, cfg.decimals, cfg.multiplier, m);
    WorthMonotone(cfg.decimals, m, Real(tx.delivered.value), Burned(tx) + BurnTolerance(tx));
  }

  lemma NegativeConvertsToNothing(codec: Codec, a: Rat, decimals: int, multiplier: string, m: Rat)
    requires Multiplier(codec, multiplier) == Some(m) && a.num < 0 && m.num >= 0
    ensures Convert(codec, Some(a), decimals, multiplier) <= 0
  {
    var p := Mul(a, m);
    ProductNonNegative(-a.num, m.num);
    assert a.den * m.den > 0 && a.num * m.num <= 0;
    var g := ReduceScales(a.num * m.num, a.den * m.den);
    ScaleOrder(p.num, 0, g);
    ProductNonNegative(Pow10(decimals), -p.num);
    MulNeg(Pow10(decimals), p.num);
    var n := Pow10(decimals) * p.num;
    assert n < 0 ==> -n / p.den >= 0;
  }

  lemma ConvertReal(codec: Codec, a: Rat, decimals: int, multiplier: string, m: Rat)
    requires Multiplier(codec, multiplier) == Some(m) && a.num >= 0 && m.num >= 0
    ensures Convert(codec, Some(a), decimals, multiplier) as real <= Worth(decimals, m, Real(a))
  {
    ConvertIsFloor(codec, a, decimals, multiplier, m);
    ScaledToReal(Convert(codec, Some(a), decimals, multiplier), a, m, decimals);
  }

  /** What an emitted transfer says about its transaction. */
  lemma Emitted(codec: Codec, cfg: FinderConfig, tx: XrplTx)
    requires BuildPending(codec, cfg, tx).Some?
    ensures var p := BuildPending(codec, cfg, tx).value;
      && p.hash == tx.hash
      && FirstAddress(codec, tx.memos, cfg.memoSuffix) == Some(p.destination)
      && tx.destination == cfg.issuer == tx.delivered.issuer && tx.delivered.currency == cfg.currency
      && p.amount == Coin(cfg.denom, Convert(codec, Some(tx.delivered.value), cfg.decimals, cfg.multiplier))
      && p.amount.amount > 0
      && Real(tx.delivered.value) <= Burned(tx) + BurnTolerance(tx)
  {
  }

  lemma WorthMonotone(decimals: int, m: Rat, x: real, y: real)
    requires m.num >= 0 && x <= y
    ensures Worth(decimals, m, x) <= Worth(decimals, m, y)
  {
    NonNegativeReal(Pow10(decimals), m);
    ScaleReal(Pow10(decimals) as real * Real(m), x, y);
  }

  lemma NonNegativeReal(p: nat, m: Rat)
    requires m.num >= 0
    ensures p as real * Real(m) >= 0.0
  {
  }

  lemma ScaleReal(k: real, x: real, y: real)
    requires k >= 0.0 && x <= y
    ensures k * x <= k * y
  {
    assert k * (y - x) >= 0.0;
  }
}
