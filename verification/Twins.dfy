/**
 * Where the bridge's guarantee ends. Tokens are told apart by the text of their currency code, so
 * two configured tokens can claim the same burn; if they claim different amounts, relayers that
 * are all honest pay the burn twice.
 */
module Twins {
  import opened Prelude
  import opened EvidenceId
  import opened ContractModel
  import opened Chain
  import opened Safety
  import opened Limits
  import opened Finder
  import opened Bridge

  /** All voters vote for both coins under one id, and both entries are executed. */
  function TwinRun(names: seq<string>, id: string, a: Coin, b: Coin, recipient: string): seq<Step>
    requires names != []
  {
    VotesBy(names, id, a, recipient) + VotesBy(names, id, b, recipient)
      + [ExecuteBy(names[0], a, KeyOf(Lower(id), a, recipient)), ExecuteBy(names[0], b, KeyOf(Lower(id), b, recipient))]
  }

  /** Exactly a threshold of distinct voters, all trusted. */
  ghost predicate Quorum(w: World, names: seq<string>) {
    && NoDup(names) && |names| == w.st.config.threshold >= 1
    && (forall a :: a in names ==> a in w.st.config.trusted)
    && (forall a :: a in w.st.config.trusted ==> a in w.everTrusted)
  }

  /** A vote for this coin would open an entry of its own, above the cap. */
  ghost predicate OpensAboveCap(w: World, id: string, a: Coin, recipient: string) {
    && Lower(id) !in w.st.sent && KeyOf(Lower(id), a, recipient) !in w.st.pending
    && w.st.config.minAmount <= a.amount && w.st.config.maxAmount < a.amount
  }

  /** From `w` to `w'` both coins were paid under the id, on new votes for exactly these coins. */
  ghost predicate PaidBoth(w: World, w': World, id: string, a: Coin, b: Coin, recipient: string) {
    && w'.st.config == w.st.config
    && |w'.payments| == |w.payments| + 2
    && (forall i :: |w.payments| <= i < |w'.payments| ==> w'.payments[i].sentId == Lower(id))
    && w'.payments[|w.payments|].tx.amount == a && w'.payments[|w.payments| + 1].tx.amount == b
    && (forall v :: v in w'.votes ==>
          v in w.votes || (v.id == Lower(id) && (v.amount == a || v.amount == b) && v.recipient == recipient))
  }

  /** From `w` to `w'` both entries were opened with a quorum of votes, and nothing was paid. */
  ghost predicate BothHeld(w: World, w': World, names: seq<string>, id: string, a: Coin, b: Coin, recipient: string) {
    var k1, k2 := KeyOf(Lower(id), a, recipient), KeyOf(Lower(id), b, recipient);
    && w'.st.config == w.st.config && w'.payments == w.payments && w'.everTrusted == w.everTrusted
    && k1 in w'.st.pending && w'.st.pending[k1] == Transaction(a, recipient, names)
    && k2 in w'.st.pending && w'.st.pending[k2] == Transaction(b, recipient, names)
    && (forall v :: v in w'.votes ==>
          v in w.votes || (v.id == Lower(id) && (v.amount == a || v.amount == b) && v.recipient == recipient))
  }

  lemma TwinPiles(api: Api, w: World, names: seq<string>, id: string, a: Coin, b: Coin, recipient: string)
    requires Quorum(w, names) && api.addrOk(recipient)
    requires OpensAboveCap(w, id, a, recipient) && OpensAboveCap(w, id, b, recipient)
    requires KeyOf(Lower(id), a, recipient) != KeyOf(Lower(id), b, recipient)
    ensures BothHeld(w, Run(api, w, VotesBy(names, id, a, recipient) + VotesBy(names, id, b, recipient)),
                     names, id, a, b, recipient)
  {
    NewPile(api, w, names, id, a, recipient);
    NewPile(api, Run(api, w, VotesBy(names, id, a, recipient)), names, id, b, recipient);
    RunConcat(api, w, VotesBy(names, id, a, recipient), VotesBy(names, id, b, recipient));
  }

  lemma TwinEnds(api: Api, w: World, w1: World, names: seq<string>, id: string, a: Coin, b: Coin, recipient: string,
                 k1: string, k2: string)
    requires Quorum(w, names) && BothHeld(w, w1, names, id, a, b, recipient)
    requires k1 == KeyOf(Lower(id), a, recipient) && k2 == KeyOf(Lower(id), b, recipient) && k1 != k2
    requires ExtractId(k1) == Lower(id) == ExtractId(k2) && a.amount > 0 && b.amount > 0
    ensures PaidBoth(w, Run(api, w1, [ExecuteBy(names[0], a, k1), ExecuteBy(names[0], b, k2)]), id, a, b, recipient)
  {
    TwoExecuted(api, w1, names[0], k1, k2);
    RunTwo(api, w1, ExecuteBy(names[0], a, k1), ExecuteBy(names[0], b, k2));
  }

  lemma TwinKeys(api: Api, id: string, a: Coin, b: Coin, recipient: string)
    requires Bech32Like(api) && api.addrOk(recipient) && '-' !in id
    requires a.denom == b.denom && NonDigitStart(a.denom) && a.amount != b.amount
    ensures KeyOf(Lower(id), a, recipient) != KeyOf(Lower(id), b, recipient)
    ensures ExtractId(KeyOf(Lower(id), a, recipient)) == Lower(id) == ExtractId(KeyOf(Lower(id), b, recipient))
  {
    LowerKeepsDash(id);
    LowerIdempotent(id);
    BuildInjective(Lower(id), a.amount, a.denom, recipient, Lower(id), b.amount, b.denom, recipient);
    ExtractRoundTrip(Lower(id), a.amount, a.denom, recipient);
    ExtractRoundTrip(Lower(id), b.amount, b.denom, recipient);
  }

  lemma BothPaid(api: Api, w: World, names: seq<string>, id: string, a: Coin, b: Coin, recipient: string)
    requires Quorum(w, names) && Bech32Like(api) && api.addrOk(recipient) && '-' !in id
    requires OpensAboveCap(w, id, a, recipient) && OpensAboveCap(w, id, b, recipient)
    requires a.denom == b.denom && NonDigitStart(a.denom) && a.amount != b.amount
    ensures PaidBoth(w, Run(api, w, TwinRun(names, id, a, b, recipient)), id, a, b, recipient)
  {
    var k1, k2 := KeyOf(Lower(id), a, recipient), KeyOf(Lower(id), b, recipient);
    TwinKeys(api, id, a, b, recipient);
    TwinPiles(api, w, names, id, a, b, recipient);
    var votes := VotesBy(names, id, a, recipient) + VotesBy(names, id, b, recipient);
    var w1 := Run(api, w, votes);
    var e1, e2 := ExecuteBy(names[0], a, k1), ExecuteBy(names[0], b, k2);
    TwinEnds(api, w, w1, names, id, a, b, recipient, k1, k2);
    RunConcat(api, w, votes, [e1, e2]);
    assert TwinRun(names, id, a, b, recipient) == votes + [e1, e2];
  }

  /** The two tokens claim different amounts for the transaction. */
  ghost predicate RivalClaims(codec: Codec, settings: Settings, t: XrplToken, u: XrplToken, tx: XrplTx) {
    var a, b := Claim(codec, settings, t, tx), Claim(codec, settings, u, tx);
    a.Some? && b.Some? && a.value.amount != b.value.amount
  }

  /** Addresses that the relayer decodes are valid on the contract's chain. */
  ghost predicate ValidRecipients(api: Api, codec: Codec) {
    forall s :: codec.address(s).Some? ==> api.addrOk(codec.address(s).value)
  }

  lemma RivalsAlike(api: Api, codec: Codec, settings: Settings, t: XrplToken, u: XrplToken, tx: XrplTx)
    requires ValidRecipients(api, codec) && RivalClaims(codec, settings, t, u, tx)
    ensures var a, b := Claim(codec, settings, t, tx).value, Claim(codec, settings, u, tx).value;
      && a.destination == b.destination && api.addrOk(a.destination)
      && a.amount.denom == b.amount.denom == settings.denom && a.amount.amount != b.amount.amount
      && a.amount.amount > 0 && b.amount.amount > 0
  {
    Emitted(codec, FinderOf(codec, settings, t), tx);
    Emitted(codec, FinderOf(codec, settings, u), tx);
    FirstAddressMeaning(codec, tx.memos, settings.memoSuffix);
    var d := Claim(codec, settings, t, tx).value.destination;
    var i :| 0 <= i < |tx.memos| && MemoAddress(codec, tx.memos[i], settings.memoSuffix) == Some(d);
  }

  /**
   * From any world where both claims are new and above the cap: a quorum of honest voters, each
   * voting for what its two finders found, has one burn paid for twice.
   */
  lemma RivalsPaidTwice(api: Api, codec: Codec, settings: Settings, ledger: XrplLedger, w: World, names: seq<string>,
                        t: XrplToken, u: XrplToken, id: string)
    requires PlainBridge(api, settings, ledger) && ValidRecipients(api, codec) && Quorum(w, names)
    requires id in ledger && Lower(id) == id && t in w.st.config.tokens && u in w.st.config.tokens
    requires RivalClaims(codec, settings, t, u, ledger[id])
    requires var a, b := Claim(codec, settings, t, ledger[id]).value, Claim(codec, settings, u, ledger[id]).value;
      OpensAboveCap(w, id, a.amount, a.destination) && OpensAboveCap(w, id, b.amount, a.destination)
    ensures var a, b := Claim(codec, settings, t, ledger[id]).value, Claim(codec, settings, u, ledger[id]).value;
      var w' := Run(api, w, TwinRun(names, id, a.amount, b.amount, a.destination));
      && PaidBoth(w, w', id, a.amount, b.amount, a.destination)
      && forall v :: v in w'.votes ==> v in w.votes || HonestVote(codec, settings, w'.st.config.tokens, ledger, v)
  {
    var a, b := Claim(codec, settings, t, ledger[id]).value, Claim(codec, settings, u, ledger[id]).value;
    RivalsAlike(api, codec, settings, t, u, ledger[id]);
    BothPaid(api, w, names, id, a.amount, b.amount, a.destination);
    assert Entitles(codec, settings, t, ledger[id], a.amount, a.destination);
    assert Entitles(codec, settings, u, ledger[id], b.amount, a.destination);
  }

  /** The owner adds a token again with its currency code in lower case, and a burn of it is paid for twice. */
  lemma CaseVariantPaidTwice(api: Api, codec: Codec, settings: Settings, ledger: XrplLedger, w: World, names: seq<string>,
                             t: XrplToken, multiplier: string, id: string)
    requires NoDup(TokenKeys(w.st.config.tokens)) && t in w.st.config.tokens && TokenError(api, t).None?
    requires TokenError(api, t.(multiplier := multiplier)).None?
    requires (t.issuer, Lower(t.currency)) !in TokenKeys(w.st.config.tokens)
    requires |w.st.config.tokens| < MAX_XRPL_TOKENS && w.st.config.version < MAX_U64
    requires PlainBridge(api, settings, ledger) && ValidRecipients(api, codec) && Quorum(w, names)
    requires id in ledger && Lower(id) == id
    requires RivalClaims(codec, settings, t, CaseVariant(t, multiplier), ledger[id])
    requires var a, b := Claim(codec, settings, t, ledger[id]).value,
                         Claim(codec, settings, CaseVariant(t, multiplier), ledger[id]).value;
      OpensAboveCap(w, id, a.amount, a.destination) && OpensAboveCap(w, id, b.amount, a.destination)
    ensures var u := CaseVariant(t, multiplier);
      var a, b := Claim(codec, settings, t, ledger[id]).value, Claim(codec, settings, u, ledger[id]).value;
      var w1 := Next(api, w, AddToken(w, u));
      var w' := Run(api, w1, TwinRun(names, id, a.amount, b.amount, a.destination));
      && PaidBoth(w1, w', id, a.amount, b.amount, a.destination)
      && forall v :: v in w'.votes ==> v in w.votes || HonestVote(codec, settings, w'.st.config.tokens, ledger, v)
  {
    CaseVariantTokenAccepted(api, w, t, multiplier);
    var u := CaseVariant(t, multiplier);
    RivalsPaidTwice(api, codec, settings, ledger, Next(api, w, AddToken(w, u)), names, t, u, id);
  }

  // ---------- the exact condition ----------

  /** Some contract with these tokens has a run, all of whose votes are honest, that pays for the burn twice. */
  ghost predicate HonestRunPaysTwice(api: Api, codec: Codec, settings: Settings, ledger: XrplLedger,
                                     tokens: seq<XrplToken>, id: string) {
    exists start, steps ::
      && Fresh(api, start) && Run(api, start, steps).st.config.tokens == tokens
      && FewLiars(codec, settings, ledger, Run(api, start, steps), {})
      && RecordedTwice(Run(api, start, steps), id)
  }

  ghost predicate RecordedTwice(w: World, id: string) {
    exists i, j :: 0 <= i < j < |w.payments| && w.payments[i].sentId == id == w.payments[j].sentId
  }

  /** A contract with one voter, these tokens, and every payment above the cap. */
  function StartedWith(voter: string, tokens: seq<XrplToken>): World {
    Start(State(Config(voter, [voter], 1, 0, 0, tokens, 1), map[], map[]), map[])
  }

  lemma StartedWithFresh(api: Api, voter: string, tokens: seq<XrplToken>)
    requires api.addrOk(voter) && NoDup(TokenKeys(tokens))
    requires forall i :: 0 <= i < |tokens| ==> TokenError(api, tokens[i]).None?
    ensures Fresh(api, StartedWith(voter, tokens))
  {
    var msg := InstantiateMsg(voter, [voter], 1, 0, 0, tokens);
    TrustedErrorMeaning(api, [voter]);
    FirstInvalidTokenMeaning(api, tokens);
    var keys := TokenKeys(tokens);
    assert forall i :: 0 <= i < |keys| ==> keys[i] == TokenKey(tokens[i]);
    assert IsFresh(api, StartedWith(voter, tokens), msg, map[]);
  }

  /**
   * For every token list the contract accepts and every burn: honest relayers can have the burn
   * paid for twice exactly if two of the finders that accept it ask for different amounts.
   */
  lemma PaidTwiceIffRivals(api: Api, codec: Codec, settings: Settings, ledger: XrplLedger, tokens: seq<XrplToken>, id: string)
    requires PlainBridge(api, settings, ledger) && ValidRecipients(api, codec) && id in ledger && Lower(id) == id
    requires NoDup(TokenKeys(tokens)) && forall i :: 0 <= i < |tokens| ==> TokenError(api, tokens[i]).None?
    ensures HonestRunPaysTwice(api, codec, settings, ledger, tokens, id)
       <==> !OneClaim(codec, settings, tokens, ledger[id])
  {
    if !OneClaim(codec, settings, tokens, ledger[id]) {
      var t, u :| t in tokens && u in tokens && RivalClaims(codec, settings, t, u, ledger[id]);
      RivalsFromStart(api, codec, settings, ledger, tokens, t, u, id);
    } else if HonestRunPaysTwice(api, codec, settings, ledger, tokens, id) {
      var start, steps :|
        && Fresh(api, start) && Run(api, start, steps).st.config.tokens == tokens
        && FewLiars(codec, settings, ledger, Run(api, start, steps), {})
        && RecordedTwice(Run(api, start, steps), id);
      var ps := Run(api, start, steps).payments;
      var i, j :| 0 <= i < j < |ps| && ps[i].sentId == id == ps[j].sentId;
      NoBurnPaidTwice(api, codec, settings, ledger, start, steps, {}, i, j);
      assert false;
    }
  }

  lemma RivalsFromStart(api: Api, codec: Codec, settings: Settings, ledger: XrplLedger, tokens: seq<XrplToken>,
                        t: XrplToken, u: XrplToken, id: string)
    requires PlainBridge(api, settings, ledger) && ValidRecipients(api, codec) && id in ledger && Lower(id) == id
    requires NoDup(TokenKeys(tokens)) && forall i :: 0 <= i < |tokens| ==> TokenError(api, tokens[i]).None?
    requires t in tokens && u in tokens && RivalClaims(codec, settings, t, u, ledger[id])
    ensures HonestRunPaysTwice(api, codec, settings, ledger, tokens, id)
  {
    var a, b := Claim(codec, settings, t, ledger[id]).value, Claim(codec, settings, u, ledger[id]).value;
    RivalsAlike(api, codec, settings, t, u, ledger[id]);
    var voter := a.destination;
    var start, steps := StartedWith(voter, tokens), TwinRun([voter], id, a.amount, b.amount, voter);
    StartedWithFresh(api, voter, tokens);
    RivalsPaidTwice(api, codec, settings, ledger, start, [voter], t, u, id);
    var w := Run(api, start, steps);
    assert w.payments[0].sentId == id == w.payments[1].sentId;
    assert RecordedTwice(w, id);
  }
}
