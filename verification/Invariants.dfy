/** What every reachable world satisfies, and the proof that every step keeps it. */
module Invariants {
  import opened Prelude
  import opened EvidenceId
  import opened ContractModel
  import opened Chain

  ghost predicate ConfigOk(w: World) {
    var c := w.st.config;
    && c.threshold >= 1
    && NoDup(c.trusted)
    && (forall a :: a in c.trusted ==> a in w.everTrusted)
    && NoDup(TokenKeys(c.tokens))
  }

  /** Every configured token passed the contract's validation. */
  ghost predicate TokensOk(api: Api, w: World) {
    forall t :: t in w.st.config.tokens ==> TokenError(api, t).None?
  }

  /** Every recorded vote was admissible under the config then in force. */
  ghost predicate VoteOk(api: Api, w: World, v: VoteRecord) {
    && v.voter in v.cfg.trusted
    && v.voter in w.everTrusted
    && v.id == Lower(v.id)
    && v.key == KeyOf(v.id, v.amount, v.recipient)
    && api.addrOk(v.recipient)
    && v.cfg.threshold == w.st.config.threshold
    && v.cfg.minAmount <= v.amount.amount
  }

  ghost predicate VotesOk(api: Api, w: World) {
    forall v :: v in w.votes ==> VoteOk(api, w, v)
  }

  /** `v` is the vote that put the i-th provider into the entry; the first vote fixed the payload. */
  ghost predicate IsPlace(v: VoteRecord, key: string, tx: Transaction, i: nat)
    requires i < |tx.providers|
  {
    && v.key == key
    && v.voter == tx.providers[i]
    && v.place == i + 1
    && (i == 0 ==> v.amount == tx.amount && v.recipient == tx.recipient)
  }

  ghost predicate HasPlace(votes: set<VoteRecord>, key: string, tx: Transaction, i: nat)
    requires i < |tx.providers|
  {
    exists v :: v in votes && IsPlace(v, key, tx, i)
  }

  /** Every provider is there because of a vote of its own. */
  ghost predicate Backed(votes: set<VoteRecord>, key: string, tx: Transaction) {
    && |tx.providers| >= 1
    && NoDup(tx.providers)
    && forall i :: 0 <= i < |tx.providers| ==> HasPlace(votes, key, tx, i)
  }

  /** The vote that completed the threshold was cast for more than the cap then in force. */
  ghost predicate Parked(votes: set<VoteRecord>, threshold: nat, key: string, tx: Transaction) {
    1 <= threshold <= |tx.providers| ==>
      exists v :: v in votes && IsPlace(v, key, tx, threshold - 1) && v.cfg.maxAmount < v.amount.amount
  }

  ghost predicate PendingOk(w: World) {
    forall k :: k in w.st.pending ==>
      && Backed(w.votes, k, w.st.pending[k])
      && Parked(w.votes, w.st.config.threshold, k, w.st.pending[k])
  }

  /** The vote that triggered an automatic payment, cast under the config recorded with the payment. */
  ghost predicate IsTrigger(v: VoteRecord, p: Payment) {
    && |p.tx.providers| == p.cfg.threshold >= 1
    && IsPlace(v, p.key, p.tx, p.cfg.threshold - 1)
    && v.cfg == p.cfg
    && v.id == p.sentId
    && v.amount.amount <= p.cfg.maxAmount
  }

  ghost predicate PaymentOk(w: World, p: Payment) {
    && p.cfg.threshold == w.st.config.threshold <= |p.tx.providers|
    && Backed(w.votes, p.key, p.tx)
    && (p.auto ==> exists v :: v in w.votes && IsTrigger(v, p))
    && (!p.auto ==> p.sentId == ExtractId(p.key))
    && p.sentId in w.st.sent
  }

  ghost predicate PaymentsOk(w: World) {
    forall p :: p in w.payments ==> PaymentOk(w, p)
  }

  ghost predicate SentOk(w: World) {
    forall id :: id in w.st.sent ==> exists p :: p in w.payments && p.sentId == id && p.tx == w.st.sent[id]
  }

  ghost predicate Inv(api: Api, w: World) {
    ConfigOk(w) && TokensOk(api, w) && VotesOk(api, w) && PendingOk(w) && PaymentsOk(w) && SentOk(w)
  }

  // ---------- preservation ----------

  lemma FreshInv(api: Api, w: World)
    requires Fresh(api, w)
    ensures Inv(api, w)
  {
    var msg, balance :| IsFresh(api, w, msg, balance);
    TrustedErrorMeaning(api, msg.trusted);
    FirstInvalidTokenMeaning(api, msg.tokens);
    var keys := TokenKeys(msg.tokens);
    assert forall i :: 0 <= i < |keys| ==> keys[i] == TokenKey(msg.tokens[i]);
  }

  lemma BackedGrows(votes: set<VoteRecord>, more: set<VoteRecord>, key: string, tx: Transaction)
    requires Backed(votes, key, tx) && votes <= more
    ensures Backed(more, key, tx)
  {
    forall i | 0 <= i < |tx.providers| ensures HasPlace(more, key, tx, i) {
      assert HasPlace(votes, key, tx, i);
      var v :| v in votes && IsPlace(v, key, tx, i);
      assert v in more;
    }
  }

  lemma ParkedGrows(votes: set<VoteRecord>, more: set<VoteRecord>, threshold: nat, key: string, tx: Transaction)
    requires Parked(votes, threshold, key, tx) && votes <= more
    ensures Parked(more, threshold, key, tx)
  {
    if 1 <= threshold <= |tx.providers| {
      var v :| v in votes && IsPlace(v, key, tx, threshold - 1) && v.cfg.maxAmount < v.amount.amount;
      assert v in more;
    }
  }

  lemma PaymentsGrow(w: World, w': World)
    requires PaymentsOk(w) && w.votes <= w'.votes && w.st.sent.Keys <= w'.st.sent.Keys
    requires w'.st.config.threshold == w.st.config.threshold
    ensures forall p :: p in w.payments ==> PaymentOk(w', p)
  {
    forall p | p in w.payments ensures PaymentOk(w', p) {
      BackedGrows(w.votes, w'.votes, p.key, p.tx);
      if p.auto {
        var v :| v in w.votes && IsTrigger(v, p);
        assert v in w'.votes;
      }
    }
  }

  lemma PendingGrows(w: World, votes: set<VoteRecord>, k: string)
    requires PendingOk(w) && k in w.st.pending && w.votes <= votes
    ensures Backed(votes, k, w.st.pending[k])
    ensures Parked(votes, w.st.config.threshold, k, w.st.pending[k])
  {
    BackedGrows(w.votes, votes, k, w.st.pending[k]);
    ParkedGrows(w.votes, votes, w.st.config.threshold, k, w.st.pending[k]);
  }

  /** One more vote extends a backed entry, or starts one. */
  lemma TallyBacked(api: Api, w: World, sender: string, id: string, amount: Coin, recipient: string)
    requires Inv(api, w)
    requires Tally(w.st, KeyOf(Lower(id), amount, recipient), sender, amount, recipient).Ok?
    ensures var v := NewVote(w.st, sender, id, amount, recipient);
            var tx := Tally(w.st, v.key, sender, amount, recipient).value;
            && Backed(w.votes + {v}, v.key, tx)
            && v.place == |tx.providers|
            && IsPlace(v, v.key, tx, v.place - 1)
  {
    var v := NewVote(w.st, sender, id, amount, recipient);
    var tx := Tally(w.st, v.key, sender, amount, recipient).value;
    var votes := w.votes + {v};
    var n := |tx.providers| - 1;
    assert v in votes && IsPlace(v, v.key, tx, n);
    assert HasPlace(votes, v.key, tx, n);
    if v.key in w.st.pending {
      var old_ := w.st.pending[v.key];
      assert Backed(w.votes, v.key, old_);
      forall i | 0 <= i < n ensures HasPlace(votes, v.key, tx, i) {
        assert HasPlace(w.votes, v.key, old_, i);
        var u :| u in w.votes && IsPlace(u, v.key, old_, i);
        assert IsPlace(u, v.key, tx, i);
      }
    }
  }

  /** The entry stays parked when it is saved instead of paid. */
  lemma TallyParked(api: Api, w: World, sender: string, id: string, amount: Coin, recipient: string)
    requires Inv(api, w)
    requires Tally(w.st, KeyOf(Lower(id), amount, recipient), sender, amount, recipient).Ok?
    requires var tx := Tally(w.st, KeyOf(Lower(id), amount, recipient), sender, amount, recipient).value;
             |tx.providers| == w.st.config.threshold ==> w.st.config.maxAmount < amount.amount
    ensures var v := NewVote(w.st, sender, id, amount, recipient);
            Parked(w.votes + {v}, w.st.config.threshold, v.key, Tally(w.st, v.key, sender, amount, recipient).value)
  {
    var v := NewVote(w.st, sender, id, amount, recipient);
    var tx := Tally(w.st, v.key, sender, amount, recipient).value;
    var t := w.st.config.threshold;
    TallyBacked(api, w, sender, id, amount, recipient);
    if t < |tx.providers| {
      var old_ := w.st.pending[v.key];
      var u :| u in w.votes && IsPlace(u, v.key, old_, t - 1) && u.cfg.maxAmount < u.amount.amount;
      assert u in w.votes + {v} && IsPlace(u, v.key, tx, t - 1);
    } else if t == |tx.providers| {
      assert v in w.votes + {v};
    }
  }

  lemma VoteInv(api: Api, w: World, c: Step)
    requires Inv(api, w) && c.Call? && c.msg.ThresholdBankSend? && Apply(api, w, c).Ok?
    ensures Inv(api, Next(api, w, c))
  {
    var ThresholdBankSend(id, amount, recipient) := c.msg;
    var w' := Next(api, w, c);
    var v := NewVote(w.st, c.sender, id, amount, recipient);
    var tx := Tally(w.st, v.key, c.sender, amount, recipient).value;
    LowerIdempotent(id);
    TallyBacked(api, w, c.sender, id, amount, recipient);
    assert w'.votes == w.votes + {v};
    PaymentsGrow(w, w');
    forall k | k in w'.st.pending
      ensures Backed(w'.votes, k, w'.st.pending[k])
      ensures Parked(w'.votes, w'.st.config.threshold, k, w'.st.pending[k])
    {
      if k == v.key {
        TallyParked(api, w, c.sender, id, amount, recipient);
      } else {
        PendingGrows(w, w'.votes, k);
      }
    }
    if |w'.payments| > |w.payments| {
      var p := w'.payments[|w.payments|];
      assert w'.payments == w.payments + [p];
      assert v in w'.votes && IsTrigger(v, p);
      assert PaymentOk(w', p);
      SentGrows(w, w', p);
    }
  }

  /** The sent map after a payment is explained by the payments so far. */
  lemma SentGrows(w: World, w': World, p: Payment)
    requires SentOk(w)
    requires w'.payments == w.payments + [p] && w'.st.sent == w.st.sent[p.sentId := p.tx]
    ensures SentOk(w')
  {
    forall id | id in w'.st.sent
      ensures exists q :: q in w'.payments && q.sentId == id && q.tx == w'.st.sent[id]
    {
      if id == p.sentId {
        assert p in w'.payments;
      } else {
        var q :| q in w.payments && q.sentId == id && q.tx == w.st.sent[id];
        assert q in w'.payments;
      }
    }
  }

  lemma ExecuteInv(api: Api, w: World, c: Step)
    requires Inv(api, w) && c.Call? && c.msg.ExecutePending? && Apply(api, w, c).Ok?
    ensures Inv(api, Next(api, w, c))
  {
    var w' := Next(api, w, c);
    var p := w'.payments[|w.payments|];
    assert w'.payments == w.payments + [p];
    PaymentsGrow(w, w');
    SentGrows(w, w', p);
    assert PaymentOk(w', p);
  }

  /** What an update, an upgrade or a deposit can do to the world: replace the config, and trust more addresses. */
  ghost predicate Reconfigured(w: World, w': World) {
    && w'.st.pending == w.st.pending && w'.st.sent == w.st.sent
    && w'.votes == w.votes && w'.payments == w.payments
    && w.everTrusted <= w'.everTrusted
    && w'.st.config.threshold == w.st.config.threshold
  }

  lemma UpdateEffect(api: Api, w: World, step: Step)
    requires Apply(api, w, step).Ok?
    requires step.Call? ==> !step.msg.ThresholdBankSend? && !step.msg.ExecutePending?
    ensures Reconfigured(w, Next(api, w, step))
  {
  }

  lemma UpdateConfig(api: Api, w: World, step: Step)
    requires ConfigOk(w) && TokensOk(api, w) && Apply(api, w, step).Ok?
    requires step.Call? ==> !step.msg.ThresholdBankSend? && !step.msg.ExecutePending?
    ensures ConfigOk(Next(api, w, step)) && TokensOk(api, Next(api, w, step))
  {
    if step.Call? && step.msg.UpdateTrustedAddresses? {
      TrustedErrorMeaning(api, step.msg.trusted);
    }
    if step.Call? && step.msg.AddXrplTokens? {
      AddTokensErrorMeaning(api, w.st.config.tokens, step.msg.tokens);
    }
  }

  lemma ReconfiguredInv(api: Api, w: World, w': World)
    requires Inv(api, w) && Reconfigured(w, w') && ConfigOk(w') && TokensOk(api, w')
    ensures Inv(api, w')
  {
    PaymentsGrow(w, w');
    assert forall v :: v in w'.votes ==> VoteOk(api, w, v);
  }

  /** An accepted update keeps the invariant. */
  lemma UpdateInv(api: Api, w: World, step: Step)
    requires Inv(api, w) && Apply(api, w, step).Ok?
    requires step.Call? ==> !step.msg.ThresholdBankSend? && !step.msg.ExecutePending?
    ensures Inv(api, Next(api, w, step))
  {
    UpdateEffect(api, w, step);
    UpdateConfig(api, w, step);
    ReconfiguredInv(api, w, Next(api, w, step));
  }

  lemma StepInv(api: Api, w: World, step: Step)
    requires Inv(api, w)
    ensures Inv(api, Next(api, w, step))
  {
    if Apply(api, w, step).Ok? {
      if step.Call? && step.msg.ThresholdBankSend? {
        VoteInv(api, w, step);
      } else if step.Call? && step.msg.ExecutePending? {
        ExecuteInv(api, w, step);
      } else {
        UpdateInv(api, w, step);
      }
    }
  }

  lemma {:induction false} RunInv(api: Api, w: World, steps: seq<Step>)
    requires Inv(api, w)
    ensures Inv(api, Run(api, w, steps))
    decreases |steps|
  {
    if steps != [] {
      StepInv(api, w, steps[0]);
      RunInv(api, Next(api, w, steps[0]), steps[1..]);
    }
  }

  /** Every world reached from instantiation satisfies the invariant. */
  lemma ReachableInv(api: Api, w: World, steps: seq<Step>)
    requires Fresh(api, w)
    ensures Inv(api, Run(api, w, steps))
  {
    FreshInv(api, w);
    RunInv(api, w, steps);
  }
}
