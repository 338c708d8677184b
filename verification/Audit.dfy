/** The auditor's pass from contract calls back to the XRPL, and its agreement with the finder. */
module Audit {
  import opened Prelude
  import opened ContractModel
  import opened Finder

  /** A vote request as found in the chain's transactions. */
  datatype Request = Request(id: string, amount: Coin, recipient: string)

  datatype Discrepancy =
    | OrphanTx(id: string)
    | InvalidRecipient(id: string)
    | NotBurning(id: string)
    | AmountMismatch(id: string)

  /** The token is burned by the transaction: delivered to its own issuer. */
  predicate Burns(codec: Codec, t: XrplToken, tx: XrplTx) {
    tx.destination == t.issuer && tx.delivered.issuer == t.issuer && tx.delivered.currency == codec.currency(t.currency)
  }

  function TokenFor(codec: Codec, tokens: seq<XrplToken>, tx: XrplTx): Option<XrplToken> {
    if tokens == [] then None
    else if Burns(codec, tokens[0], tx) then Some(tokens[0])
    else TokenFor(codec, tokens[1..], tx)
  }

  function TokenMultiplier(codec: Codec, tokens: seq<XrplToken>, tx: XrplTx): string {
    var t := TokenFor(codec, tokens, tx);
    if t.Some? then t.value.multiplier else "1.0"
  }

  function Faults(codec: Codec, settings: Settings, tokens: seq<XrplToken>, txs: map<string, XrplTx>, r: Request)
    : seq<Discrepancy>
  {
    if r.id !in txs then [OrphanTx(r.id)]
    else
      var tx := txs[r.id];
      (if FirstAddress(codec, tx.memos, settings.memoSuffix) == Some(r.recipient) then [] else [InvalidRecipient(r.id)])
        + (if TokenFor(codec, tokens, tx).Some? then [] else [NotBurning(r.id)])
        + (if Convert(codec, Some(tx.delivered.value), settings.decimals, TokenMultiplier(codec, tokens, tx)) == r.amount.amount
           then [] else [AmountMismatch(r.id)])
  }

  function AllFaults(codec: Codec, settings: Settings, tokens: seq<XrplToken>, txs: map<string, XrplTx>, rs: seq<Request>)
    : seq<Discrepancy>
  {
    if rs == [] then []
    else AllFaults(codec, settings, tokens, txs, rs[..|rs| - 1]) + Faults(codec, settings, tokens, txs, rs[|rs| - 1])
  }

  /** The search for the burned token, with its early exit. */
  method FindToken(codec: Codec, tokens: seq<XrplToken>, tx: XrplTx) returns (isBurning: bool, multiplier: string)
    ensures isBurning <==> TokenFor(codec, tokens, tx).Some?
    ensures multiplier == TokenMultiplier(codec, tokens, tx)
  {
    isBurning, multiplier := false, "1.0";
    for i := 0 to |tokens|
      invariant !isBurning && multiplier == "1.0"
      invariant TokenFor(codec, tokens, tx) == TokenFor(codec, tokens[i..], tx)
    {
      if Burns(codec, tokens[i], tx) {
        isBurning, multiplier := true, tokens[i].multiplier;
        return;
      }
    }
  }

  method AnalyzeXrplToTX(codec: Codec, settings: Settings, tokens: seq<XrplToken>, txs: map<string, XrplTx>, rs: seq<Request>)
    returns (ds: seq<Discrepancy>)
    ensures ds == AllFaults(codec, settings, tokens, txs, rs)
  {
    ds := [];
    for i := 0 to |rs|
      invariant ds == AllFaults(codec, settings, tokens, txs, rs[..i])
    {
      assert rs[..i + 1][..i] == rs[..i];
      var r := rs[i];
      if r.id !in txs {
        ds := ds + [OrphanTx(r.id)];
        continue;
      }
      var tx := txs[r.id];
      ghost var before := ds;
      var recipient := ExtractAddressFromMemo(codec, tx.memos, settings.memoSuffix);
      var bad: seq<Discrepancy> := [];
      if recipient.None? || recipient.value != r.recipient {
        bad := bad + [InvalidRecipient(r.id)];
      }
      var isBurning, multiplier := FindToken(codec, tokens, tx);
      if !isBurning {
        bad := bad + [NotBurning(r.id)];
      }
      if Convert(codec, Some(tx.delivered.value), settings.decimals, multiplier) != r.amount.amount {
        bad := bad + [AmountMismatch(r.id)];
      }
      assert bad == Faults(codec, settings, tokens, txs, r);
      ds := ds + bad;
    }
    assert rs[..|rs|] == rs;
  }

  lemma {:induction false} TokenForMeaning(codec: Codec, tokens: seq<XrplToken>, tx: XrplTx)
    ensures match TokenFor(codec, tokens, tx)
      case Some(t) => t in tokens && Burns(codec, t, tx)
      case None => forall t :: t in tokens ==> !Burns(codec, t, tx)
  {
    if tokens != [] {
      TokenForMeaning(codec, tokens[1..], tx);
      assert tokens == [tokens[0]] + tokens[1..];
    }
  }

  lemma {:induction false} NoFaultsAtAll(codec: Codec, settings: Settings, tokens: seq<XrplToken>,
                                         txs: map<string, XrplTx>, rs: seq<Request>)
    ensures AllFaults(codec, settings, tokens, txs, rs) == []
       <==> forall i :: 0 <= i < |rs| ==> Faults(codec, settings, tokens, txs, rs[i]) == []
  {
    if rs != [] {
      var n := |rs| - 1;
      NoFaultsAtAll(codec, settings, tokens, txs, rs[..n]);
      ConcatEmpty(AllFaults(codec, settings, tokens, txs, rs[..n]), Faults(codec, settings, tokens, txs, rs[n]));
      assert forall i :: 0 <= i < n ==> rs[..n][i] == rs[i];
    }
  }

  /** A known transaction, its memo recipient, a configured token that it burns, and the converted amount. */
  ghost predicate Clean(codec: Codec, settings: Settings, tokens: seq<XrplToken>, txs: map<string, XrplTx>, r: Request) {
    && r.id in txs
    && FirstAddress(codec, txs[r.id].memos, settings.memoSuffix) == Some(r.recipient)
    && exists t :: t in tokens && txs[r.id].destination == t.issuer && txs[r.id].delivered.issuer == t.issuer
         && txs[r.id].delivered.currency == codec.currency(t.currency)
         && r.amount.amount == Convert(codec, Some(txs[r.id].delivered.value), settings.decimals, t.multiplier)
  }

  /**
   * A request without discrepancy is one for a known transaction that names its memo recipient,
   * burns a configured token, and asks for exactly the converted amount.
   */
  lemma CleanRequest(codec: Codec, settings: Settings, tokens: seq<XrplToken>, txs: map<string, XrplTx>, r: Request)
    requires DistinctTokens(codec, tokens)
    ensures Faults(codec, settings, tokens, txs, r) == [] <==> Clean(codec, settings, tokens, txs, r)
  {
    if r.id in txs {
      TokenForMeaning(codec, tokens, txs[r.id]);
    }
  }

  /** What a finder submits passes the audit. */
  lemma AuditorAgreesWithFinder(codec: Codec, settings: Settings, tokens: seq<XrplToken>, txs: map<string, XrplTx>,
                                t: XrplToken, tx: XrplTx)
    requires DistinctTokens(codec, tokens) && t in tokens
    requires BuildPending(codec, FinderOf(codec, settings, t), tx).Some?
    requires tx.hash in txs && txs[tx.hash] == tx
    ensures var p := BuildPending(codec, FinderOf(codec, settings, t), tx).value;
      Faults(codec, settings, tokens, txs, Request(p.hash, p.amount, p.destination)) == []
  {
    Emitted(codec, FinderOf(codec, settings, t), tx);
    TokenForMeaning(codec, tokens, tx);
  }

  /** The request is what a finder of a configured token made of the transaction it names. */
  ghost predicate FromFinder(codec: Codec, settings: Settings, tokens: seq<XrplToken>, txs: map<string, XrplTx>, r: Request) {
    r.id in txs && exists t :: t in tokens && Submits(codec, settings, t, txs[r.id], r)
  }

  ghost predicate Submits(codec: Codec, settings: Settings, t: XrplToken, tx: XrplTx, r: Request) {
    var p := BuildPending(codec, FinderOf(codec, settings, t), tx);
    p.Some? && r == Request(p.value.hash, p.value.amount, p.value.destination)
  }

  /** The whole pass agrees with the finders: over requests that all come from them it reports nothing. */
  lemma AuditPassClean(codec: Codec, settings: Settings, tokens: seq<XrplToken>, txs: map<string, XrplTx>, rs: seq<Request>)
    requires DistinctTokens(codec, tokens)
    requires forall r :: r in rs ==> FromFinder(codec, settings, tokens, txs, r)
    ensures AllFaults(codec, settings, tokens, txs, rs) == []
  {
    forall i | 0 <= i < |rs| ensures Faults(codec, settings, tokens, txs, rs[i]) == [] {
      assert FromFinder(codec, settings, tokens, txs, rs[i]);
      var tx := txs[rs[i].id];
      var t :| t in tokens && Submits(codec, settings, t, tx, rs[i]);
      Emitted(codec, FinderOf(codec, settings, t), tx);
      AuditorAgreesWithFinder(codec, settings, tokens, txs, t, tx);
    }
    NoFaultsAtAll(codec, settings, tokens, txs, rs);
  }

  /** A pass that reports nothing means that every request is clean. */
  lemma CleanPass(codec: Codec, settings: Settings, tokens: seq<XrplToken>, txs: map<string, XrplTx>, rs: seq<Request>)
    requires DistinctTokens(codec, tokens)
    ensures AllFaults(codec, settings, tokens, txs, rs) == []
       <==> forall i :: 0 <= i < |rs| ==> Clean(codec, settings, tokens, txs, rs[i])
  {
    NoFaultsAtAll(codec, settings, tokens, txs, rs);
    forall i | 0 <= i < |rs| ensures Faults(codec, settings, tokens, txs, rs[i]) == [] <==> Clean(codec, settings, tokens, txs, rs[i]) {
      CleanRequest(codec, settings, tokens, txs, rs[i]);
    }
  }

  /** No configured token has the issuer and currency of what the transaction delivered to its destination. */
  ghost predicate BurnsNone(codec: Codec, tokens: seq<XrplToken>, tx: XrplTx) {
    forall t :: t in tokens ==>
      tx.destination != t.issuer || tx.delivered.issuer != t.issuer || tx.delivered.currency != codec.currency(t.currency)
  }

  /**
   * Which discrepancy is reported for what: an unknown transaction, a recipient other than the memo's,
   * no configured token burned, and an amount other than the one at that token's multiplier, or at par.
   */
  lemma FaultKinds(codec: Codec, settings: Settings, tokens: seq<XrplToken>, txs: map<string, XrplTx>, r: Request)
    requires DistinctTokens(codec, tokens)
    ensures var ds := Faults(codec, settings, tokens, txs, r);
      && (OrphanTx(r.id) in ds <==> r.id !in txs)
      && (InvalidRecipient(r.id) in ds
          <==> r.id in txs && FirstAddress(codec, txs[r.id].memos, settings.memoSuffix) != Some(r.recipient))
      && (NotBurning(r.id) in ds <==> r.id in txs && BurnsNone(codec, tokens, txs[r.id]))
      && (AmountMismatch(r.id) in ds
          <==> && r.id in txs
               && (BurnsNone(codec, tokens, txs[r.id]) ==>
                     Convert(codec, Some(txs[r.id].delivered.value), settings.decimals, "1.0") != r.amount.amount)
               && (forall t :: t in tokens && txs[r.id].destination == t.issuer == txs[r.id].delivered.issuer
                               && txs[r.id].delivered.currency == codec.currency(t.currency) ==>
                     Convert(codec, Some(txs[r.id].delivered.value), settings.decimals, t.multiplier) != r.amount.amount))
  {
    if r.id in txs {
      TokenForMeaning(codec, tokens, txs[r.id]);
    }
  }
}
