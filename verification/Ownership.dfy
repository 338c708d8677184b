/** Who may set up and change the configuration, exactly when a change is accepted, and what it changes. */
module Ownership {
  import opened Prelude
  import opened EvidenceId
  import opened ContractModel
  import opened Chain

  // ---------- what is admissible ----------

  /** A 40 digit hexadecimal currency code, a valid issuer, and a multiplier from 0.1 to 10, in units of 10^-18. */
  ghost predicate ValidToken(api: Api, t: XrplToken) {
    && |t.currency| == 40
    && (forall c :: c in t.currency ==> '0' <= c <= '9' || 'a' <= c <= 'f' || 'A' <= c <= 'F')
    && api.issuerOk(t.issuer)
    && api.decimal(t.multiplier).Some?
    && 100_000_000_000_000_000 <= api.decimal(t.multiplier).value <= 10_000_000_000_000_000_000
  }

  /** No two tokens have the same issuer and currency code. */
  ghost predicate DistinctPairs(ts: seq<XrplToken>) {
    forall i, j :: 0 <= i < j < |ts| ==> ts[i].issuer != ts[j].issuer || ts[i].currency != ts[j].currency
  }

  ghost predicate ValidAddresses(api: Api, addrs: seq<string>) {
    NoDup(addrs) && forall a :: a in addrs ==> api.addrOk(a)
  }

  ghost predicate ValidTokens(api: Api, ts: seq<XrplToken>) {
    forall t :: t in ts ==> ValidToken(api, t)
  }

  lemma ValidTokenIff(api: Api, t: XrplToken)
    ensures TokenError(api, t).None? <==> ValidToken(api, t)
  {
    assert (forall c :: c in t.currency ==> IsHex(c)) <==> !exists i :: 0 <= i < |t.currency| && !IsHex(t.currency[i]);
  }

  lemma ValidTokensIff(api: Api, ts: seq<XrplToken>)
    ensures ValidTokens(api, ts) <==> forall i :: 0 <= i < |ts| ==> TokenError(api, ts[i]).None?
  {
    forall t ensures TokenError(api, t).None? <==> ValidToken(api, t) {
      ValidTokenIff(api, t);
    }
    assert forall i :: 0 <= i < |ts| ==> ts[i] in ts;
  }

  lemma DistinctPairsIff(ts: seq<XrplToken>)
    ensures DistinctPairs(ts) <==> NoDup(TokenKeys(ts))
  {
    var keys := TokenKeys(ts);
    assert forall i :: 0 <= i < |ts| ==> keys[i] == (ts[i].issuer, ts[i].currency);
  }

  lemma ValidAddressesIff(api: Api, addrs: seq<string>)
    ensures TrustedError(api, addrs).None? <==> ValidAddresses(api, addrs)
  {
    TrustedErrorMeaning(api, addrs);
    assert forall i :: 0 <= i < |addrs| ==> addrs[i] in addrs;
  }

  // ---------- instantiation ----------

  /** A contract is set up exactly for a valid owner, a reachable positive threshold, and valid distinct lists. */
  lemma InstantiateIff(api: Api, msg: InstantiateMsg)
    ensures Instantiate(api, msg).Ok?
       <==> && api.addrOk(msg.owner) && 1 <= msg.threshold <= |msg.trusted|
            && ValidAddresses(api, msg.trusted) && ValidTokens(api, msg.tokens) && DistinctPairs(msg.tokens)
    ensures Instantiate(api, msg).Ok? ==>
              Instantiate(api, msg).value == State(
                Config(msg.owner, msg.trusted, msg.threshold, msg.minAmount, msg.maxAmount, msg.tokens, 1), map[], map[])
  {
    ValidAddressesIff(api, msg.trusted);
    FirstInvalidTokenMeaning(api, msg.tokens);
    ValidTokensIff(api, msg.tokens);
  }

  // ---------- updates ----------

  predicate IsUpdate(msg: Msg) {
    !msg.ThresholdBankSend? && !msg.ExecutePending?
  }

  /** What the message asks for is valid on top of this config. */
  ghost predicate Admissible(api: Api, c: Config, msg: Msg)
    requires IsUpdate(msg)
  {
    match msg
    case UpdateMinAmount(_) => true
    case UpdateMaxAmount(_) => true
    case UpdateTrustedAddresses(addrs) => ValidAddresses(api, addrs)
    case AddXrplTokens(added) => ValidTokens(api, added) && DistinctPairs(c.tokens + added) && |c.tokens + added| <= 200
    case UpdateOwner(newOwner) => api.addrOk(newOwner)
  }

  /** The config it leads to: one field replaced, and the next version. */
  function Updated(c: Config, msg: Msg): Config
    requires IsUpdate(msg)
  {
    var v := c.version + 1;
    match msg
    case UpdateMinAmount(n) => Config(c.owner, c.trusted, c.threshold, n, c.maxAmount, c.tokens, v)
    case UpdateMaxAmount(n) => Config(c.owner, c.trusted, c.threshold, c.minAmount, n, c.tokens, v)
    case UpdateTrustedAddresses(addrs) => Config(c.owner, addrs, c.threshold, c.minAmount, c.maxAmount, c.tokens, v)
    case AddXrplTokens(added) => Config(c.owner, c.trusted, c.threshold, c.minAmount, c.maxAmount, c.tokens + added, v)
    case UpdateOwner(newOwner) => Config(newOwner, c.trusted, c.threshold, c.minAmount, c.maxAmount, c.tokens, v)
  }

  const LAST_VERSION := 18_446_744_073_709_551_615

  /** An update is accepted exactly from the owner in force, while versions last, and if what it asks for is valid. */
  lemma UpdateIff(api: Api, w: World, sender: string, funds: seq<Coin>, bankOk: bool, msg: Msg)
    requires IsUpdate(msg) && DistinctPairs(w.st.config.tokens)
    ensures var r := Apply(api, w, Call(sender, funds, bankOk, msg));
      && (r.Ok? <==> sender == w.st.config.owner && w.st.config.version < LAST_VERSION && Admissible(api, w.st.config, msg))
      && (sender != w.st.config.owner ==> r == Err(Unauthorized))
      && (r.Ok? ==> && r.value.st == State(Updated(w.st.config, msg), w.st.pending, w.st.sent)
                    && r.value.votes == w.votes && r.value.payments == w.payments)
  {
    DistinctPairsIff(w.st.config.tokens);
    match msg
    case UpdateTrustedAddresses(addrs) =>
      ValidAddressesIff(api, addrs);
    case AddXrplTokens(added) =>
      AddTokensErrorMeaning(api, w.st.config.tokens, added);
      ValidTokensIff(api, added);
      DistinctPairsIff(w.st.config.tokens + added);
    case _ =>
  }

  /** An upgrade that names an owner is accepted exactly if the address is valid, and replaces the owner alone. */
  lemma UpgradeIff(api: Api, w: World, newOwner: string)
    ensures Apply(api, w, Upgrade(None)) == Ok(w)
    ensures Apply(api, w, Upgrade(Some(newOwner))).Ok? <==> api.addrOk(newOwner) && w.st.config.version < LAST_VERSION
    ensures Apply(api, w, Upgrade(Some(newOwner))).Ok? ==>
              var c := w.st.config;
              Apply(api, w, Upgrade(Some(newOwner))).value
                == w.(st := State(Config(newOwner, c.trusted, c.threshold, c.minAmount, c.maxAmount, c.tokens, c.version + 1),
                                  w.st.pending, w.st.sent))
  {
  }

  /** The owner asks for no change in this step, and no upgrade names another owner. */
  predicate LeavesConfig(s: Step, owner: string) {
    match s
    case Call(sender, _, _, msg) => sender == owner ==> !IsUpdate(msg)
    case Upgrade(newOwner) => newOwner.None?
    case Deposit(_) => true
  }

  lemma StepLeavesConfig(api: Api, w: World, s: Step)
    requires LeavesConfig(s, w.st.config.owner)
    ensures Next(api, w, s).st.config == w.st.config
  {
  }

  /** Nobody but the owner changes anything: while the owner asks for nothing, the config stays as it is. */
  lemma {:induction false} OnlyOwnerChanges(api: Api, w: World, steps: seq<Step>)
    requires forall s :: s in steps ==> LeavesConfig(s, w.st.config.owner)
    ensures Run(api, w, steps).st.config == w.st.config
    decreases |steps|
  {
    if steps != [] {
      assert steps[0] in steps && forall s :: s in steps[1..] ==> s in steps;
      StepLeavesConfig(api, w, steps[0]);
      OnlyOwnerChanges(api, Next(api, w, steps[0]), steps[1..]);
    }
  }

  // ---------- manual execution ----------

  /** An execution, by anybody, is accepted exactly with a threshold of votes and the very coin, which must be positive. */
  lemma ExecuteIff(api: Api, w: World, sender: string, funds: seq<Coin>, bankOk: bool, key: string)
    ensures var r := Apply(api, w, Call(sender, funds, bankOk, ExecutePending(key)));
      && (r.Ok? <==> && key in w.st.pending && |w.st.pending[key].providers| >= w.st.config.threshold
                     && funds == [w.st.pending[key].amount] && w.st.pending[key].amount.amount > 0 && bankOk)
      && (r.Ok? ==> r.value.st == State(w.st.config, w.st.pending - {key}, w.st.sent[ExtractId(key) := w.st.pending[key]]))
  {
    if key in w.st.pending {
      var coin := w.st.pending[key].amount;
      if funds == [coin] {
        assert [coin][..0] == [];
        assert CreditAll(w.balance, [coin]) == Credit(w.balance, coin);
      }
    }
  }

  /** Which refusal means what. */
  lemma ExecuteRefused(api: Api, w: World, sender: string, funds: seq<Coin>, bankOk: bool, key: string)
    ensures var r := Apply(api, w, Call(sender, funds, bankOk, ExecutePending(key)));
      && (r == Err(TransactionNotFound) <==> key !in w.st.pending)
      && (r == Err(TransactionNotConfirmed)
          <==> key in w.st.pending && |w.st.pending[key].providers| < w.st.config.threshold)
      && (r == Err(FundsMismatch)
          <==> && key in w.st.pending && |w.st.pending[key].providers| >= w.st.config.threshold
               && |funds| == 1 && funds[0].amount > 0 && funds[0] != w.st.pending[key].amount)
  {
  }
}
