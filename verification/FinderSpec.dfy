/**
 * What the finder promises, in terms of the transaction's own facts: which payments are burns,
 * what they entitle to, and what each entry of the metadata contributes to the verdict.
 */
module FinderSpec {
  import opened Prelude
  import opened Rational
  import opened ContractModel
  import opened Finder

  // ---------- conversion ----------

  /** A readable multiplier is the factor itself. */
  lemma ConvertReadable(codec: Codec, text: string, m: Rat, a: Rat, decimals: int)
    requires text != "" && text != "0" && codec.fraction(text) == Some(m) && m.num > 0 && a.num >= 0
    ensures IsFloor(Convert(codec, Some(a), decimals, text), Pow10(decimals) * (a.num * m.num), a.den * m.den)
  {
    ConvertIsFloor(codec, a, decimals, text, m);
  }

  /** An absent multiplier and a zero one stand for the factor one. */
  lemma ConvertAtPar(codec: Codec, text: string, a: Rat, decimals: int)
    requires a.num >= 0
    requires if text == "" || text == "0"
             then codec.fraction("1.0").Some? && codec.fraction("1.0").value.num == codec.fraction("1.0").value.den
             else codec.fraction(text).Some? && codec.fraction(text).value.num == 0
    ensures IsFloor(Convert(codec, Some(a), decimals, text), Pow10(decimals) * a.num, a.den)
  {
    var m := if text == "" || text == "0" then codec.fraction("1.0").value else Fraction(1, 1);
    ConvertIsFloor(codec, a, decimals, text, m);
    FloorScales(Convert(codec, Some(a), decimals, text), Pow10(decimals) * a.num, a.den, m.den);
    ScaledThrough(m.den, Pow10(decimals), a.num);
  }

  /** Without an amount, or with a multiplier that cannot be read, nothing is due. */
  lemma ConvertNothing(codec: Codec, text: string, a: Rat, decimals: int)
    ensures Convert(codec, None, decimals, text) == 0
    ensures text != "" && text != "0" && codec.fraction(text).None? ==> Convert(codec, Some(a), decimals, text) == 0
  {
  }

  /** A negative amount converts to the negative of what the positive one does: the division truncates. */
  lemma ConvertOdd(codec: Codec, text: string, a: Rat, decimals: int)
    ensures Convert(codec, Some(Fraction(-a.num, a.den)), decimals, text) == -Convert(codec, Some(a), decimals, text)
  {
    var m := Multiplier(codec, text);
    if m.Some? {
      MulOdd(a, m.value);
      ScaledOdd(Pow10(decimals), Mul(a, m.value).num, Mul(a, m.value).den);
    }
  }

  lemma MulOdd(a: Rat, m: Rat)
    ensures Mul(Fraction(-a.num, a.den), m) == Fraction(-Mul(a, m).num, Mul(a, m).den)
  {
    assert a.den * m.den > 0;
    MulNeg(m.num, a.num);
    assert -a.num * m.num == -(a.num * m.num);
    ReduceOdd(a.num * m.num, a.den * m.den);
  }

  lemma ScaledOdd(p: nat, x: int, d: int)
    requires d > 0
    ensures Quo(p * -x, d) == -Quo(p * x, d)
  {
    MulNeg(p, x);
    QuoOdd(p * x, d);
  }

  lemma ReduceOdd(n: int, d: int)
    requires d > 0
    ensures Reduce(-n, d) == Fraction(-Reduce(n, d).num, Reduce(n, d).den)
  {
    var g := ReduceScales(n, d);
    if n == 0 {
      assert Reduce(n, d).num == 0;
    }
  }

  lemma QuoOdd(n: int, d: int)
    requires d > 0
    ensures Quo(-n, d) == -Quo(n, d)
  {
  }

  /** What the contract's decimal says about the relayer's fraction. */
  ghost predicate SameNumber(m: Rat, n: nat) {
    m.num * DECIMAL_UNIT == n * m.den
  }

  lemma SameFloor(r: int, p: nat, a: Rat, m: Rat, n: nat)
    requires SameNumber(m, n) && IsFloor(r, p * (a.num * m.num), a.den * m.den)
    ensures IsFloor(r, p * (a.num * n), a.den * DECIMAL_UNIT)
  {
    FloorScales(r, p * (a.num * m.num), a.den * m.den, DECIMAL_UNIT);
    FloorScales(r, p * (a.num * n), a.den * DECIMAL_UNIT, m.den);
    SameTop(p, a.num, m, n);
    SameBottom(a.den, m.den);
  }

  lemma SameTop(p: int, x: int, m: Rat, n: nat)
    requires SameNumber(m, n)
    ensures DECIMAL_UNIT * (p * (x * m.num)) == m.den * (p * (x * n))
  {
    assert DECIMAL_UNIT * (p * (x * m.num)) == (p * x) * (m.num * DECIMAL_UNIT);
    assert m.den * (p * (x * n)) == (p * x) * (n * m.den);
  }

  lemma SameBottom(x: int, d: int)
    ensures DECIMAL_UNIT * (x * d) == d * (x * DECIMAL_UNIT)
  {
  }

  /** For a token the contract accepted, the factor is the contract's own decimal. */
  lemma ConvertAccepted(api: Api, codec: Codec, t: XrplToken, a: Rat, decimals: int)
    requires TokenError(api, t).None? && SameDecimals(api, codec) && a.num >= 0
    ensures api.decimal(t.multiplier).Some?
    ensures IsFloor(Convert(codec, Some(a), decimals, t.multiplier),
                    Pow10(decimals) * (a.num * api.decimal(t.multiplier).value), a.den * DECIMAL_UNIT)
  {
    var n, m := api.decimal(t.multiplier).value, codec.fraction(t.multiplier).value;
    assert SameNumber(m, n);
    PositiveNumber(m, n);
    ConvertReadable(codec, t.multiplier, m, a, decimals);
    SameFloor(Convert(codec, Some(a), decimals, t.multiplier), Pow10(decimals), a, m, n);
  }

  lemma PositiveNumber(m: Rat, n: nat)
    requires SameNumber(m, n) && n > 0
    ensures m.num > 0
  {
    assert n * m.den > 0;
  }

  // ---------- burn check ----------

  /** The entry is about the delivered currency; for a token of another issuer it must stand against that issuer. */
  ghost predicate Concerns(b: BalanceChange, account: string, delivered: Amount) {
    && b.currency == delivered.currency
    && (!delivered.native && delivered.issuer != account ==> b.counterParty == delivered.issuer)
  }

  ghost function TotalChange(bs: seq<BalanceChange>, account: string, delivered: Amount): real {
    if bs == [] then 0.0
    else (if Concerns(bs[0], account, delivered) then bs[0].change else 0.0) + TotalChange(bs[1..], account, delivered)
  }

  /** The delivered amount as a number. */
  ghost function AmountOf(delivered: Amount): real {
    delivered.value.num as real / delivered.value.den as real
  }

  /** `x` is within one part in 10^14 of `size`. */
  ghost predicate Negligible(x: real, size: real) {
    x <= 0.00000000000001 * (if size < 0.0 then -size else size)
  }

  /**
   * The account's changes make up for what was delivered: entirely, or for an issued token up to a
   * shortfall that is negligible beside the delivered amount or beside one of the balances.
   */
  ghost predicate MadeUp(bs: seq<BalanceChange>, account: string, delivered: Amount) {
    var shortfall := AmountOf(delivered) - TotalChange(bs, account, delivered);
    && (exists b :: b in bs && Concerns(b, account, delivered))
    && (|| shortfall <= 0.0
        || (!delivered.native && Negligible(shortfall, AmountOf(delivered)))
        || (!delivered.native && exists b :: b in bs && Concerns(b, account, delivered) && Negligible(shortfall, b.balance)))
  }

  lemma {:induction false} ReceivedIsTotal(bs: seq<BalanceChange>, account: string, delivered: Amount)
    ensures Received(bs, account, delivered) == TotalChange(bs, account, delivered)
  {
    if bs != [] {
      assert bs == [bs[0]] + bs[1..];
      TotalsConcat([bs[0]], bs[1..], account, delivered);
      assert [bs[0]][..0] == [];
      ReceivedIsTotal(bs[1..], account, delivered);
    }
  }

  /** The magnitude is the largest balance that concerns the delivery. */
  lemma {:induction false} MagnitudeIsLargest(bs: seq<BalanceChange>, account: string, delivered: Amount)
    ensures forall b :: b in bs && Concerns(b, account, delivered) ==> AbsReal(b.balance) <= Magnitude(bs, account, delivered)
    ensures Magnitude(bs, account, delivered) == 0.0
         || exists b :: b in bs && Concerns(b, account, delivered) && AbsReal(b.balance) == Magnitude(bs, account, delivered)
  {
    if bs != [] {
      var n := |bs| - 1;
      MagnitudeIsLargest(bs[..n], account, delivered);
      MagnitudeNonNegative(bs[..n], account, delivered);
      assert bs == bs[..n] + [bs[n]];
      assert Counts(bs[n], account, delivered) <==> Concerns(bs[n], account, delivered);
      assert bs[n] in bs;
      if Magnitude(bs[..n], account, delivered) != 0.0 {
        var b :| b in bs[..n] && Concerns(b, account, delivered) && AbsReal(b.balance) == Magnitude(bs[..n], account, delivered);
        assert b in bs;
      }
    }
  }

  /** The verdict of the reconciliation, for any entries in any order. */
  lemma BackedIff(bs: seq<BalanceChange>, account: string, delivered: Amount)
    ensures Backed(bs, account, delivered) <==> MadeUp(bs, account, delivered)
  {
    var shortfall := AmountOf(delivered) - TotalChange(bs, account, delivered);
    ReceivedIsTotal(bs, account, delivered);
    assert forall b :: Counts(b, account, delivered) <==> Concerns(b, account, delivered);
    ToleranceNonNegative(bs, account, delivered);
    if !delivered.native {
      ToleranceIff(bs, account, delivered, shortfall);
    }
  }

  lemma ToleranceIff(bs: seq<BalanceChange>, account: string, delivered: Amount, x: real)
    requires !delivered.native
    ensures x <= Tolerance(bs, account, delivered)
       <==> || x <= 0.0
            || Negligible(x, AmountOf(delivered))
            || exists b :: b in bs && Concerns(b, account, delivered) && Negligible(x, b.balance)
  {
    var m, d := Magnitude(bs, account, delivered), AbsReal(Real(delivered.value));
    MagnitudeIsLargest(bs, account, delivered);
    MagnitudeNonNegative(bs, account, delivered);
    assert Tolerance(bs, account, delivered) == EPSILON * MaxReal(m, d);
    assert EPSILON * m <= EPSILON * MaxReal(m, d) && EPSILON * d <= EPSILON * MaxReal(m, d);
    forall b | b in bs && Concerns(b, account, delivered) && Negligible(x, b.balance)
      ensures x <= Tolerance(bs, account, delivered)
    {
      assert EPSILON * AbsReal(b.balance) <= EPSILON * m;
    }
  }

  // ---------- what single entries do to the verdict ----------

  /** The verdict on an account for which the metadata lists these entries. */
  function VerdictOn(bs: seq<BalanceChange>, account: string, delivered: Amount): Result<bool, ()> {
    BurnVerdict(Ok(map[account := bs]), account, delivered)
  }

  /** Metadata that cannot be read is an error, and an account it does not list has received nothing. */
  lemma NothingListed(balances: Result<map<string, seq<BalanceChange>>, ()>, account: string, delivered: Amount)
    ensures balances.Err? ==> BurnVerdict(balances, account, delivered) == Err(())
    ensures balances.Ok? && account !in balances.value ==> BurnVerdict(balances, account, delivered) == Ok(false)
    ensures balances.Ok? && account in balances.value ==>
              BurnVerdict(balances, account, delivered) == VerdictOn(balances.value[account], account, delivered)
  {
  }

  /** One entry of the issuer's own token: its change is compared with what was delivered. */
  lemma OneIssuedEntry(b: BalanceChange, delivered: Amount)
    requires !delivered.native && b.currency == delivered.currency
    ensures var d := AmountOf(delivered);
      VerdictOn([b], delivered.issuer, delivered)
        == Ok(d - b.change <= 0.00000000000001 * MaxReal(AbsReal(b.balance), AbsReal(d)))
  {
    SingleEntry(b, delivered.issuer, delivered);
  }

  lemma SingleEntry(b: BalanceChange, account: string, delivered: Amount)
    requires Counts(b, account, delivered)
    ensures Received([b], account, delivered) == b.change && Magnitude([b], account, delivered) == AbsReal(b.balance)
    ensures AnyCounts([b], account, delivered)
  {
    var bs := [b];
    assert bs[..|bs| - 1] == [] && bs[|bs| - 1] == b;
    assert Received(bs, account, delivered) == Received([], account, delivered) + b.change;
    assert Magnitude(bs, account, delivered) == MaxReal(Magnitude([], account, delivered), AbsReal(b.balance));
    assert b in bs;
  }

  /** XRP is compared exactly. */
  lemma OneNativeEntry(b: BalanceChange, account: string, delivered: Amount)
    requires delivered.native && b.currency == delivered.currency
    ensures VerdictOn([b], account, delivered) == Ok(AmountOf(delivered) <= b.change)
  {
    SingleEntry(b, account, delivered);
  }

  /** Entries of another currency, and of another counterparty for a token of another issuer, change nothing. */
  lemma ForeignEntryIgnored(b: BalanceChange, bs: seq<BalanceChange>, account: string, delivered: Amount)
    requires b.currency != delivered.currency
          || (!delivered.native && delivered.issuer != account && b.counterParty != delivered.issuer)
    ensures VerdictOn([b] + bs, account, delivered) == VerdictOn(bs, account, delivered)
  {
    TotalsConcat([b], bs, account, delivered);
    MagnitudeNonNegative(bs, account, delivered);
    assert [b][..0] == [];
    assert Received([b], account, delivered) == 0.0 && Magnitude([b], account, delivered) == 0.0;
    assert forall x :: x in [b] + bs <==> x == b || x in bs;
  }

  /** An entry split in two, with the same total change, changes nothing. */
  lemma SplitEntryAlike(b: BalanceChange, change: real, bs: seq<BalanceChange>, account: string, delivered: Amount)
    ensures VerdictOn([b.(change := change), b.(change := b.change - change)] + bs, account, delivered)
         == VerdictOn([b] + bs, account, delivered)
  {
    var x, y := b.(change := change), b.(change := b.change - change);
    EntryTotals(b, account, delivered);
    EntryTotals(x, account, delivered);
    EntryTotals(y, account, delivered);
    assert [x, y] == [x] + [y];
    TotalsConcat([x], [y], account, delivered);
    TotalsConcat([x, y], bs, account, delivered);
    TotalsConcat([b], bs, account, delivered);
    assert Counts(x, account, delivered) == Counts(b, account, delivered) == Counts(y, account, delivered);
    AnyCountsCons([x, y], bs, account, delivered);
    AnyCountsCons([b], bs, account, delivered);
  }

  lemma EntryTotals(b: BalanceChange, account: string, delivered: Amount)
    ensures Received([b], account, delivered) == if Counts(b, account, delivered) then b.change else 0.0
    ensures Magnitude([b], account, delivered) == if Counts(b, account, delivered) then AbsReal(b.balance) else 0.0
  {
    if Counts(b, account, delivered) {
      SingleEntry(b, account, delivered);
    } else {
      assert [b][..0] == [];
    }
  }

  lemma AnyCountsCons(front: seq<BalanceChange>, bs: seq<BalanceChange>, account: string, delivered: Amount)
    requires front != [] && forall e :: e in front ==> Counts(e, account, delivered) == Counts(front[0], account, delivered)
    ensures AnyCounts(front + bs, account, delivered) <==> Counts(front[0], account, delivered) || AnyCounts(bs, account, delivered)
  {
    assert front[0] in front + bs;
    assert forall e :: e in front + bs <==> e in front || e in bs;
  }

  // ---------- the decision ----------

  /** The memo is an address followed by the suffix. */
  ghost predicate MemoNames(codec: Codec, memo: string, suffix: string, address: string) {
    exists front :: memo == front + suffix && codec.address(front) == Some(address)
  }

  /** The first memo that names an address names this one. */
  ghost predicate FirstNamed(codec: Codec, memos: seq<string>, suffix: string, address: string) {
    exists i :: 0 <= i < |memos| && MemoNames(codec, memos[i], suffix, address)
                && forall j, other :: 0 <= j < i ==> !MemoNames(codec, memos[j], suffix, other)
  }

  /** A validated, successful payment of the token to its issuer, not before activation, that the metadata shows as received. */
  ghost predicate IsBurn(codec: Codec, t: XrplToken, tx: XrplTx) {
    && tx.validated && tx.result == "tesSUCCESS" && tx.kind == "Payment"
    && t.activationDate <= tx.date
    && !tx.delivered.native
    && tx.delivered.currency == codec.currency(t.currency)
    && tx.delivered.issuer == t.issuer && tx.destination == t.issuer
    && tx.balances.Ok? && t.issuer in tx.balances.value
    && MadeUp(tx.balances.value[t.issuer], t.issuer, tx.delivered)
  }

  /** `n` whole units are due for the delivered amount at the contract's decimal multiplier. */
  ghost predicate IsDue(api: Api, settings: Settings, t: XrplToken, tx: XrplTx, n: nat) {
    var a := tx.delivered.value;
    api.decimal(t.multiplier).Some?
    && IsFloor(n, Pow10(settings.decimals) * (a.num * api.decimal(t.multiplier).value), a.den * DECIMAL_UNIT)
  }

  /** The transfer that a burn of the token entitles to. */
  ghost predicate IsTransfer(api: Api, codec: Codec, settings: Settings, t: XrplToken, tx: XrplTx, p: PendingSend) {
    && IsBurn(codec, t, tx)
    && FirstNamed(codec, tx.memos, settings.memoSuffix, p.destination)
    && p.amount.denom == settings.denom && p.amount.amount > 0 && IsDue(api, settings, t, tx, p.amount.amount)
    && p.hash == tx.hash
  }

  lemma MemoNamesIff(codec: Codec, memo: string, suffix: string, address: string)
    ensures MemoAddress(codec, memo, suffix) == Some(address) <==> MemoNames(codec, memo, suffix, address)
  {
    if HasSuffix(memo, suffix) {
      assert memo == memo[..|memo| - |suffix|] + suffix;
    }
    forall front | memo == front + suffix ensures HasSuffix(memo, suffix) && front == memo[..|memo| - |suffix|] {
    }
  }

  lemma FirstNamedIff(codec: Codec, memos: seq<string>, suffix: string, address: string)
    ensures FirstAddress(codec, memos, suffix) == Some(address) <==> FirstNamed(codec, memos, suffix, address)
  {
    FirstAddressMeaning(codec, memos, suffix);
    forall i, a | 0 <= i < |memos|
      ensures MemoAddress(codec, memos[i], suffix) == Some(a) <==> MemoNames(codec, memos[i], suffix, a)
    {
      MemoNamesIff(codec, memos[i], suffix, a);
    }
    forall i | 0 <= i < |memos| && MemoAddress(codec, memos[i], suffix).Some?
      ensures MemoNames(codec, memos[i], suffix, MemoAddress(codec, memos[i], suffix).value)
    {
    }
    if FirstNamed(codec, memos, suffix, address) {
      var i :| 0 <= i < |memos| && MemoNames(codec, memos[i], suffix, address)
               && forall j, other :: 0 <= j < i ==> !MemoNames(codec, memos[j], suffix, other);
      FirstHit(codec, memos, suffix, address, i);
    }
  }

  lemma {:induction false} FirstHit(codec: Codec, memos: seq<string>, suffix: string, address: string, i: nat)
    requires i < |memos| && MemoAddress(codec, memos[i], suffix) == Some(address)
    requires forall j :: 0 <= j < i ==> MemoAddress(codec, memos[j], suffix).None?
    ensures FirstAddress(codec, memos, suffix) == Some(address)
  {
    if i > 0 {
      FirstHit(codec, memos[1..], suffix, address, i - 1);
    }
  }

  lemma DueIff(api: Api, codec: Codec, settings: Settings, t: XrplToken, tx: XrplTx, n: nat)
    requires TokenError(api, t).None? && SameDecimals(api, codec) && n > 0
    ensures Convert(codec, Some(tx.delivered.value), settings.decimals, t.multiplier) == n <==> IsDue(api, settings, t, tx, n)
  {
    var a := tx.delivered.value;
    var top := Pow10(settings.decimals) * (a.num * api.decimal(t.multiplier).value);
    if a.num >= 0 {
      ConvertAccepted(api, codec, t, a, settings.decimals);
      if IsDue(api, settings, t, tx, n) {
        FloorUnique(n, Convert(codec, Some(a), settings.decimals, t.multiplier), top, a.den * DECIMAL_UNIT);
      }
    } else {
      var m := AcceptedMultiplier(api, codec, t);
      NegativeConvertsToNothing(codec, a, settings.decimals, t.multiplier, m);
      NegativeTop(Pow10(settings.decimals), a.num, api.decimal(t.multiplier).value);
      assert n * (a.den * DECIMAL_UNIT) > 0;
    }
  }

  lemma NegativeTop(p: nat, x: int, n: nat)
    requires x < 0
    ensures p * (x * n) <= 0
  {
    assert x * n <= 0;
  }

  /** The finder of an accepted token emits exactly the transfers its burns entitle to. */
  lemma TransferIff(api: Api, codec: Codec, settings: Settings, t: XrplToken, tx: XrplTx, p: PendingSend)
    requires TokenError(api, t).None? && SameDecimals(api, codec)
    ensures BuildPending(codec, FinderOf(codec, settings, t), tx) == Some(p) <==> IsTransfer(api, codec, settings, t, tx, p)
  {
    FirstNamedIff(codec, tx.memos, settings.memoSuffix, p.destination);
    if p.amount.amount > 0 {
      DueIff(api, codec, settings, t, tx, p.amount.amount);
    }
    if tx.balances.Ok? {
      BackedIff(BalancesOf(tx.balances.value, t.issuer), t.issuer, tx.delivered);
    }
  }

  /** At least one whole unit is due. */
  ghost predicate WorthAUnit(api: Api, settings: Settings, t: XrplToken, tx: XrplTx) {
    var a := tx.delivered.value;
    api.decimal(t.multiplier).Some?
    && Pow10(settings.decimals) * (a.num * api.decimal(t.multiplier).value) >= a.den * DECIMAL_UNIT
  }

  /** A burn is acted upon exactly if some memo names an address and it is worth a whole unit. */
  lemma EmittedIff(api: Api, codec: Codec, settings: Settings, t: XrplToken, tx: XrplTx)
    requires TokenError(api, t).None? && SameDecimals(api, codec)
    ensures BuildPending(codec, FinderOf(codec, settings, t), tx).Some?
       <==> && IsBurn(codec, t, tx) && WorthAUnit(api, settings, t, tx)
            && exists i, address :: 0 <= i < |tx.memos| && MemoNames(codec, tx.memos[i], settings.memoSuffix, address)
  {
    var cfg, a := FinderOf(codec, settings, t), tx.delivered.value;
    var r, d := Convert(codec, Some(a), settings.decimals, t.multiplier), a.den * DECIMAL_UNIT;
    if BuildPending(codec, cfg, tx).Some? {
      var p := BuildPending(codec, cfg, tx).value;
      TransferIff(api, codec, settings, t, tx, p);
      UnitsOrder(1, p.amount.amount, d);
    }
    if IsBurn(codec, t, tx) && WorthAUnit(api, settings, t, tx)
       && exists i, address :: 0 <= i < |tx.memos| && MemoNames(codec, tx.memos[i], settings.memoSuffix, address) {
      var i, address :| 0 <= i < |tx.memos| && MemoNames(codec, tx.memos[i], settings.memoSuffix, address);
      MemoNamesIff(codec, tx.memos[i], settings.memoSuffix, address);
      FirstAddressMeaning(codec, tx.memos, settings.memoSuffix);
      if a.num < 0 {
        NegativeTop(Pow10(settings.decimals), a.num, api.decimal(t.multiplier).value);
        assert false;
      }
      ConvertAccepted(api, codec, t, a, settings.decimals);
      UnitsOrder(r + 1, 1, d);
      BackedIff(BalancesOf(tx.balances.value, t.issuer), t.issuer, tx.delivered);
    }
  }

  lemma UnitsOrder(x: int, y: int, d: int)
    requires d > 0
    ensures x <= y ==> x * d <= y * d
  {
    ScaleOrder(x, y, d);
  }

  // ---------- backing ----------

  /** What the metadata shows as returned to the destination, with the tolerance of the check on top. */
  ghost function BurnedAtMost(tx: XrplTx): real {
    if tx.balances.Err? then 0.0
    else
      var bs := BalancesOf(tx.balances.value, tx.destination);
      TotalChange(bs, tx.destination, tx.delivered) + Tolerance(bs, tx.destination, tx.delivered)
  }

  /** The value of `x` tokens in whole units at a decimal multiplier. */
  ghost function ValueAt(decimals: int, n: nat, x: real): real {
    Pow10(decimals) as real * (n as real / DECIMAL_UNIT as real) * x
  }

  lemma SameValue(m: Rat, n: nat)
    requires SameNumber(m, n)
    ensures Real(m) == n as real / DECIMAL_UNIT as real
  {
    RealProduct(m.num, DECIMAL_UNIT);
    RealProduct(n, m.den);
    assert (m.num * DECIMAL_UNIT) as real == (n * m.den) as real;
    CrossDivide(m.num as real, m.den as real, n as real, DECIMAL_UNIT as real);
  }

  lemma CrossDivide(a: real, b: real, c: real, d: real)
    requires b > 0.0 && d > 0.0 && a * d == c * b
    ensures a / b == c / d
  {
    assert a == c * b / d;
  }

  /** A transfer never exceeds the burn: amount <= 10^decimals * decimal * (total change + tolerance). */
  lemma TransferBacked(api: Api, codec: Codec, settings: Settings, t: XrplToken, tx: XrplTx, p: PendingSend)
    requires TokenError(api, t).None? && SameDecimals(api, codec) && IsTransfer(api, codec, settings, t, tx, p)
    ensures p.amount.amount as real <= ValueAt(settings.decimals, api.decimal(t.multiplier).value, BurnedAtMost(tx))
  {
    var m := AcceptedMultiplier(api, codec, t);
    TransferIff(api, codec, settings, t, tx, p);
    BurnBacking(codec, FinderOf(codec, settings, t), tx, m);
    BurnedAgrees(tx);
    WorthIsValue(settings.decimals, m, api.decimal(t.multiplier).value, BurnedAtMost(tx));
  }

  lemma BurnedAgrees(tx: XrplTx)
    ensures Burned(tx) + BurnTolerance(tx) == BurnedAtMost(tx)
  {
    if tx.balances.Ok? {
      ReceivedIsTotal(BalancesOf(tx.balances.value, tx.destination), tx.destination, tx.delivered);
    }
  }

  lemma WorthIsValue(decimals: int, m: Rat, n: nat, x: real)
    requires SameNumber(m, n)
    ensures Worth(decimals, m, x) == ValueAt(decimals, n, x)
  {
    SameValue(m, n);
  }
}
