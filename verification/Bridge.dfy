/**
 * The bridge end to end: with fewer dishonest voters than the threshold, every payment of
 * every run stands for one XRPL burn of a configured token, no burn is paid twice, and what
 * is paid out is bounded by what the burns are worth. The dishonest may vote for anything.
 */
module Bridge {
  import opened Prelude
  import opened EvidenceId
  import opened ContractModel
  import opened Chain
  import opened Invariants
  import opened Safety
  import opened Finder
  import opened FinderSpec
  import Audit
  import Executor
  import Relayer
  import Scanner

  /** XRPL transactions by normalised hash. */
  type XrplLedger = map<string, XrplTx>

  /** What the finder of token `t` makes of the transaction. */
  function Claim(codec: Codec, settings: Settings, t: XrplToken, tx: XrplTx): Option<PendingSend> {
    BuildPending(codec, FinderOf(codec, settings, t), tx)
  }

  /** The finder of token `t` turns `tx` into exactly this amount and recipient. */
  ghost predicate Entitles(codec: Codec, settings: Settings, t: XrplToken, tx: XrplTx, amount: Coin, recipient: string) {
    var e := Claim(codec, settings, t, tx);
    e.Some? && e.value.amount == amount && e.value.destination == recipient
  }

  /** A vote as an honest relayer casts it: what a finder of some configured token made of the transaction. */
  ghost predicate HonestVote(codec: Codec, settings: Settings, tokens: seq<XrplToken>, ledger: XrplLedger, v: VoteRecord) {
    v.id in ledger && exists t :: t in tokens && Entitles(codec, settings, t, ledger[v.id], v.amount, v.recipient)
  }

  /** All voters outside `liars` are honest, and there are fewer liars than the threshold. */
  ghost predicate FewLiars(codec: Codec, settings: Settings, ledger: XrplLedger, w: World, liars: set<string>) {
    && |liars| < w.st.config.threshold
    && forall v :: v in w.votes ==> v.voter in liars || HonestVote(codec, settings, w.st.config.tokens, ledger, v)
  }

  /** XRPL hashes have no dash, and the paid denom begins with no digit and has none after a dash. */
  ghost predicate PlainBridge(api: Api, settings: Settings, ledger: XrplLedger) {
    && Bech32Like(api)
    && NonDigitStart(settings.denom) && NoDigitAfterDash(settings.denom)
    && forall id :: id in ledger ==> '-' !in id
  }

  /** The finders that accept the transaction all ask for the same amount. */
  ghost predicate OneClaim(codec: Codec, settings: Settings, tokens: seq<XrplToken>, tx: XrplTx) {
    forall t, u :: t in tokens && u in tokens && Claim(codec, settings, t, tx).Some? && Claim(codec, settings, u, tx).Some?
      ==> Claim(codec, settings, t, tx).value.amount == Claim(codec, settings, u, tx).value.amount
  }

  /** Finders that accept one transaction name one recipient, and their tokens decode alike. */
  lemma OneTokenPerTx(codec: Codec, settings: Settings, t: XrplToken, u: XrplToken, tx: XrplTx)
    requires Claim(codec, settings, t, tx).Some? && Claim(codec, settings, u, tx).Some?
    ensures t.issuer == u.issuer && codec.currency(t.currency) == codec.currency(u.currency)
    ensures Claim(codec, settings, t, tx).value.destination == Claim(codec, settings, u, tx).value.destination
    ensures forall tokens :: DistinctTokens(codec, tokens) && t in tokens && u in tokens ==> t == u
  {
    Emitted(codec, FinderOf(codec, settings, t), tx);
    Emitted(codec, FinderOf(codec, settings, u), tx);
  }

  lemma DistinctTokensClaimOnce(codec: Codec, settings: Settings, tokens: seq<XrplToken>, tx: XrplTx)
    requires DistinctTokens(codec, tokens)
    ensures OneClaim(codec, settings, tokens, tx)
  {
    forall t, u | t in tokens && u in tokens && Claim(codec, settings, t, tx).Some? && Claim(codec, settings, u, tx).Some?
      ensures Claim(codec, settings, t, tx).value.amount == Claim(codec, settings, u, tx).value.amount
    {
      OneTokenPerTx(codec, settings, t, u, tx);
    }
  }

  // ---------- the honest voter is the relayer ----------

  /** The ledger knows every transaction of the history under its normalised hash. */
  ghost predicate Records(ledger: XrplLedger, history: seq<Scanner.Item>) {
    forall e :: e in history ==> Lower(e.tx.hash) in ledger && ledger[Lower(e.tx.hash)] == e.tx
  }

  /** Every vote that a relayer of a configured token submits is an honest one, in whatever state it arrives. */
  lemma RelayerVotesHonestly(codec: Codec, settings: Settings, tokens: seq<XrplToken>, ledger: XrplLedger, t: XrplToken,
                             history: seq<Scanner.Item>, attempts: nat -> seq<Executor.Attempt>, trace: seq<Step>,
                             sender: string, s: Step, st: State)
    requires t in tokens && Records(ledger, history) && s in trace
    requires Relayer.OnlyFoundVotes(codec, FinderOf(codec, settings, t), history, attempts, trace, sender)
    requires forall n: nat :: !Executor.Foreign(attempts(n), s)
    ensures s.Call? && s.sender == sender && s.msg.ThresholdBankSend?
    ensures HonestVote(codec, settings, tokens, ledger, NewVote(st, sender, s.msg.id, s.msg.amount, s.msg.recipient))
  {
    var cfg := FinderOf(codec, settings, t);
    var send :| Relayer.Found(codec, cfg, history, send) && Executor.IsVoteFor(s, sender, send);
    var e :| e in history && BuildPending(codec, cfg, e.tx) == Some(send);
    Emitted(codec, cfg, e.tx);
    assert Entitles(codec, settings, t, e.tx, send.amount, send.destination);
  }

  // ---------- payments and burns ----------

  /** Among the voters behind a payment there is an honest one. */
  lemma HonestBacker(api: Api, codec: Codec, settings: Settings, ledger: XrplLedger, w: World, liars: set<string>, p: Payment)
    returns (v: VoteRecord)
    requires Inv(api, w) && FewLiars(codec, settings, ledger, w, liars) && p in w.payments
    ensures v in w.votes && v.key == p.key && HonestVote(codec, settings, w.st.config.tokens, ledger, v)
  {
    PaymentQuorum(api, w, p);
    var backers := Elems(p.tx.providers);
    if backers <= liars {
      SubsetCard(backers, liars);
      assert false;
    }
    var a :| a in backers && a !in liars;
    v :| v in w.votes && v.key == p.key && v.voter == a;
  }

  /** The payment has the recipient that token `t` entitles its transaction to, and a reading of its amount. */
  ghost predicate StandsFor(codec: Codec, settings: Settings, t: XrplToken, tx: XrplTx, p: Payment) {
    var e := Claim(codec, settings, t, tx);
    e.Some? && p.tx.recipient == e.value.destination && ReadingOf(p.tx.amount, e.value.amount)
  }

  /** The payment is for the key of what token `t` entitles the transaction with its id to. */
  ghost predicate PaysClaim(codec: Codec, settings: Settings, ledger: XrplLedger, t: XrplToken, p: Payment) {
    && p.sentId in ledger && StandsFor(codec, settings, t, ledger[p.sentId], p)
    && var e := Claim(codec, settings, t, ledger[p.sentId]).value;
       p.key == KeyOf(p.sentId, e.amount, e.destination)
  }

  lemma PaymentPaysClaim(api: Api, codec: Codec, settings: Settings, ledger: XrplLedger,
                         start: World, steps: seq<Step>, liars: set<string>, p: Payment)
    returns (t: XrplToken)
    requires Fresh(api, start) && PlainBridge(api, settings, ledger)
    requires FewLiars(codec, settings, ledger, Run(api, start, steps), liars)
    requires p in Run(api, start, steps).payments
    ensures t in Run(api, start, steps).st.config.tokens && PaysClaim(codec, settings, ledger, t, p)
    ensures PlainKey(api, p.key)
  {
    var w := Run(api, start, steps);
    ReachableInv(api, start, steps);
    var v := HonestBacker(api, codec, settings, ledger, w, liars, p);
    t :| t in w.st.config.tokens && Entitles(codec, settings, t, ledger[v.id], v.amount, v.recipient);
    Emitted(codec, FinderOf(codec, settings, t), ledger[v.id]);
    assert VoteOk(api, w, v) && PaymentOk(w, p);
    PlainKeyIff(api, v.id, v.amount, v.recipient);
    PlainPaidOnce(api, start, steps, p.key);
    VoteIdFromKey(api, w, v);
    EntryHoldsPayload(api, w, p.tx, v.id, v.amount, v.recipient);
  }

  /** Every payment is a finder's reading of the XRPL transaction with its id. */
  lemma EveryPaymentIsABurn(api: Api, codec: Codec, settings: Settings, ledger: XrplLedger,
                            start: World, steps: seq<Step>, liars: set<string>, p: Payment)
    requires Fresh(api, start) && PlainBridge(api, settings, ledger)
    requires FewLiars(codec, settings, ledger, Run(api, start, steps), liars)
    requires p in Run(api, start, steps).payments
    ensures exists t :: t in Run(api, start, steps).st.config.tokens && PaysClaim(codec, settings, ledger, t, p)
    ensures SameDecimals(api, codec) ==>
              exists t, send :: t in Run(api, start, steps).st.config.tokens && PaysTransfer(api, codec, settings, ledger, t, send, p)
  {
    var w := Run(api, start, steps);
    var t := PaymentPaysClaim(api, codec, settings, ledger, start, steps, liars, p);
    ReachableInv(api, start, steps);
    if SameDecimals(api, codec) {
      var send := Claim(codec, settings, t, ledger[p.sentId]).value;
      TransferIff(api, codec, settings, t, ledger[p.sentId], send);
      assert PaysTransfer(api, codec, settings, ledger, t, send, p);
    }
  }

  /** The payment is for the transfer that the XRPL transaction with its id entitles to, as a burn of token `t`. */
  ghost predicate PaysTransfer(api: Api, codec: Codec, settings: Settings, ledger: XrplLedger, t: XrplToken,
                               send: PendingSend, p: Payment) {
    && p.sentId in ledger && IsTransfer(api, codec, settings, t, ledger[p.sentId], send)
    && p.key == KeyOf(p.sentId, send.amount, send.destination)
    && p.tx.recipient == send.destination && ReadingOf(p.tx.amount, send.amount)
  }

  /** An XRPL transaction for which all finders ask the same amount is paid for at most once. */
  lemma NoBurnPaidTwice(api: Api, codec: Codec, settings: Settings, ledger: XrplLedger,
                        start: World, steps: seq<Step>, liars: set<string>, i: nat, j: nat)
    requires Fresh(api, start) && PlainBridge(api, settings, ledger)
    requires FewLiars(codec, settings, ledger, Run(api, start, steps), liars)
    requires i < j < |Run(api, start, steps).payments|
    requires var w := Run(api, start, steps);
      w.payments[i].sentId in ledger ==> OneClaim(codec, settings, w.st.config.tokens, ledger[w.payments[i].sentId])
    ensures Run(api, start, steps).payments[i].sentId != Run(api, start, steps).payments[j].sentId
  {
    var w := Run(api, start, steps);
    var p, q := w.payments[i], w.payments[j];
    var t := PaymentPaysClaim(api, codec, settings, ledger, start, steps, liars, p);
    var u := PaymentPaysClaim(api, codec, settings, ledger, start, steps, liars, q);
    PlainPaidOnce(api, start, steps, p.key);
    if p.sentId == q.sentId {
      Emitted(codec, FinderOf(codec, settings, t), ledger[p.sentId]);
      Emitted(codec, FinderOf(codec, settings, u), ledger[p.sentId]);
      assert false;
    }
  }

  // ---------- totals ----------

  /** What a burn is worth at the multiplier the contract holds for the token it burns. */
  ghost function Allowance(api: Api, codec: Codec, settings: Settings, tokens: seq<XrplToken>, tx: XrplTx): real {
    match Audit.TokenFor(codec, tokens, tx)
    case None => 0.0
    case Some(t) =>
      match api.decimal(t.multiplier)
      case None => 0.0
      case Some(n) => ValueAt(settings.decimals, n, BurnedAtMost(tx))
  }

  ghost function AllowanceOf(api: Api, codec: Codec, settings: Settings, tokens: seq<XrplToken>, ledger: XrplLedger, p: Payment): real {
    if p.sentId in ledger then Allowance(api, codec, settings, tokens, ledger[p.sentId]) else 0.0
  }

  ghost function Sum(xs: seq<real>): real {
    if xs == [] then 0.0 else Sum(xs[..|xs| - 1]) + xs[|xs| - 1]
  }

  ghost function Amounts(ps: seq<Payment>): seq<real> {
    seq(|ps|, i requires 0 <= i < |ps| => ps[i].tx.amount.amount as real)
  }

  ghost function Allowances(api: Api, codec: Codec, settings: Settings, tokens: seq<XrplToken>, ledger: XrplLedger, ps: seq<Payment>)
    : seq<real>
  {
    seq(|ps|, i requires 0 <= i < |ps| => AllowanceOf(api, codec, settings, tokens, ledger, ps[i]))
  }

  /** A transaction that a finder accepts burns the finder's token, and no other. */
  lemma ClaimedTokenBurned(codec: Codec, settings: Settings, tokens: seq<XrplToken>, t: XrplToken, tx: XrplTx)
    requires DistinctTokens(codec, tokens) && t in tokens && Claim(codec, settings, t, tx).Some?
    ensures Audit.TokenFor(codec, tokens, tx) == Some(t)
  {
    Emitted(codec, FinderOf(codec, settings, t), tx);
    Audit.TokenForMeaning(codec, tokens, tx);
  }

  lemma PaymentWithinBurn(api: Api, codec: Codec, settings: Settings, ledger: XrplLedger, w: World, t: XrplToken, p: Payment)
    requires TokensOk(api, w) && SameDecimals(api, codec) && DistinctTokens(codec, w.st.config.tokens)
    requires t in w.st.config.tokens && PaysClaim(codec, settings, ledger, t, p)
    ensures p.tx.amount.amount as real <= AllowanceOf(api, codec, settings, w.st.config.tokens, ledger, p)
  {
    var tx := ledger[p.sentId];
    ClaimedTokenBurned(codec, settings, w.st.config.tokens, t, tx);
    var e := Claim(codec, settings, t, tx).value;
    TransferIff(api, codec, settings, t, tx, e);
    TransferBacked(api, codec, settings, t, tx, e);
  }

  lemma {:induction false} SumWithin(xs: seq<real>, ys: seq<real>)
    requires |xs| == |ys| && forall i :: 0 <= i < |xs| ==> xs[i] <= ys[i]
    ensures Sum(xs) <= Sum(ys)
  {
    if xs != [] {
      SumWithin(xs[..|xs| - 1], ys[..|ys| - 1]);
    }
  }

  /**
   * Solvency of the bridge: over any run the total paid out, by both paths, is at most what the
   * burns it was paid for are worth at their tokens' multipliers, and those burns are pairwise
   * different.
   */
  lemma PaidWithinBurned(api: Api, codec: Codec, settings: Settings, ledger: XrplLedger,
                         start: World, steps: seq<Step>, liars: set<string>)
    requires Fresh(api, start) && PlainBridge(api, settings, ledger) && SameDecimals(api, codec)
    requires DistinctTokens(codec, Run(api, start, steps).st.config.tokens)
    requires FewLiars(codec, settings, ledger, Run(api, start, steps), liars)
    ensures var w := Run(api, start, steps);
      && Sum(Amounts(w.payments)) <= Sum(Allowances(api, codec, settings, w.st.config.tokens, ledger, w.payments))
      && forall i, j :: 0 <= i < j < |w.payments| ==> w.payments[i].sentId != w.payments[j].sentId
  {
    var w := Run(api, start, steps);
    ReachableInv(api, start, steps);
    var xs, ys := Amounts(w.payments), Allowances(api, codec, settings, w.st.config.tokens, ledger, w.payments);
    forall i | 0 <= i < |xs| ensures xs[i] <= ys[i] {
      var t := PaymentPaysClaim(api, codec, settings, ledger, start, steps, liars, w.payments[i]);
      PaymentWithinBurn(api, codec, settings, ledger, w, t, w.payments[i]);
    }
    SumWithin(xs, ys);
    forall i, j | 0 <= i < j < |w.payments| ensures w.payments[i].sentId != w.payments[j].sentId {
      if w.payments[i].sentId in ledger {
        DistinctTokensClaimOnce(codec, settings, w.st.config.tokens, ledger[w.payments[i].sentId]);
      }
      NoBurnPaidTwice(api, codec, settings, ledger, start, steps, liars, i, j);
    }
  }
}
