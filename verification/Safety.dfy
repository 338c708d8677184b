/** Safety of whole runs: who can be paid, how often, and what it takes. */
module Safety {
  import opened Prelude
  import opened EvidenceId
  import opened ContractModel
  import opened Chain
  import opened Invariants

  /**
   * Every payload the contract would file under this key has a dash-free id. A property of the
   * text of the key, whoever votes; `PlainKeyIff` decides it from any payload of the key.
   */
  ghost predicate PlainKey(api: Api, key: string) {
    forall id, amount, recipient :: api.addrOk(recipient) && KeyOf(id, amount, recipient) == key ==> '-' !in id
  }

  /** Every payload the contract would file under this key has this id, with a dash in it only for amount zero. */
  ghost predicate OneId(api: Api, key: string, id: string) {
    forall i, coin, recipient :: api.addrOk(recipient) && KeyOf(i, coin, recipient) == key ==>
      Lower(i) == id && ('-' in i ==> coin.amount == 0)
  }

  /** The texts for which that is so; see `OneIdIff`. */
  predicate Unambiguous(id: string, amount: Coin) {
    NoDigitAfterDash(amount.denom) && if amount.amount > 0 then '-' !in id else NoDigitAfterDash(id)
  }

  /** The contract would file a payload of a larger amount under this key. */
  ghost predicate LargerReading(api: Api, key: string, n: nat) {
    exists id, coin, recipient :: api.addrOk(recipient) && KeyOf(id, coin, recipient) == key && coin.amount > n
  }

  /** Accepted addresses are lower case and have no dash, as bech32 account addresses are. */
  ghost predicate Bech32Like(api: Api) {
    forall a :: api.addrOk(a) ==> Lower(a) == a && '-' !in a
  }

  // ---------- keys ----------

  /** A payload without a dash in id or recipient, nor one before a digit in its denom, has a plain key. */
  lemma PlainPayload(api: Api, id: string, amount: Coin, recipient: string)
    requires Bech32Like(api) && '-' !in id && '-' !in recipient && NoDigitAfterDash(amount.denom)
    ensures PlainKey(api, KeyOf(id, amount, recipient))
  {
    forall id', amount', recipient' | api.addrOk(recipient') && KeyOf(id', amount', recipient') == KeyOf(id, amount, recipient)
      ensures '-' !in id'
    {
      OneIdPerKey(id, amount.amount, amount.denom, recipient, id', amount'.amount, amount'.denom, recipient');
      LowerKeepsDash(id);
      LowerKeepsDash(id');
    }
  }

  /** A key is plain exactly if its id has no dash and no dash of its denom is followed by a digit. */
  lemma PlainKeyIff(api: Api, id: string, amount: Coin, recipient: string)
    requires Bech32Like(api) && api.addrOk(recipient)
    ensures PlainKey(api, KeyOf(id, amount, recipient)) <==> '-' !in id && NoDigitAfterDash(amount.denom)
  {
    if '-' !in id {
      if NoDigitAfterDash(amount.denom) {
        PlainPayload(api, id, amount, recipient);
      } else {
        var id', n, denom := DashedReading(id, amount.amount, amount.denom, recipient);
        assert KeyOf(id', Coin(denom, n), recipient) == KeyOf(id, amount, recipient);
      }
    }
  }

  /** Whatever addresses look like, a key with two dashes is plain. */
  lemma TwoDashKeyPlain(api: Api, key: string)
    requires multiset(key)['-'] <= 2
    ensures PlainKey(api, key)
  {
    forall id, amount, recipient | api.addrOk(recipient) && KeyOf(id, amount, recipient) == key ensures '-' !in id {
      TwoDashes(id, amount.amount, amount.denom, recipient);
    }
  }

  /** The payloads of a plain key have the id it names. */
  lemma PlainIsOneId(api: Api, key: string)
    requires PlainKey(api, key)
    ensures OneId(api, key, ExtractId(key))
  {
    forall i, coin, recipient | api.addrOk(recipient) && KeyOf(i, coin, recipient) == key
      ensures Lower(i) == ExtractId(key) && '-' !in i
    {
      ExtractRoundTrip(i, coin.amount, coin.denom, recipient);
    }
  }

  lemma UnambiguousOneId(api: Api, id: string, amount: Coin, recipient: string)
    requires Bech32Like(api) && '-' !in recipient && Unambiguous(id, amount)
    ensures OneId(api, KeyOf(id, amount, recipient), Lower(id))
  {
    forall i, coin, r | api.addrOk(r) && KeyOf(i, coin, r) == KeyOf(id, amount, recipient)
      ensures Lower(i) == Lower(id) && ('-' in i ==> coin.amount == 0)
    {
      OneIdPerKey(id, amount.amount, amount.denom, recipient, i, coin.amount, coin.denom, r);
      LowerKeepsDash(id);
      LowerKeepsDash(i);
      if amount.amount == 0 {
        ZeroReadings(coin.amount, Lower(coin.denom), Lower(amount.denom));
      }
    }
  }

  /** All payloads of a key have one id, dash-free unless the amount is zero, exactly if its text is unambiguous. */
  lemma OneIdIff(api: Api, id: string, amount: Coin, recipient: string)
    requires Bech32Like(api) && api.addrOk(recipient)
    ensures OneId(api, KeyOf(id, amount, recipient), Lower(id)) <==> Unambiguous(id, amount)
  {
    if Unambiguous(id, amount) {
      UnambiguousOneId(api, id, amount, recipient);
    } else if !NoDigitAfterDash(amount.denom) {
      var id', n, denom := DashedReading(id, amount.amount, amount.denom, recipient);
      assert KeyOf(id', Coin(denom, n), recipient) == KeyOf(id, amount, recipient);
    } else if amount.amount == 0 {
      var id', n, denom := ShorterReading(id, amount.amount, amount.denom, recipient);
      assert KeyOf(id', Coin(denom, n), recipient) == KeyOf(id, amount, recipient);
    }
  }

  /** A payload of a plain key has a rival of larger amount exactly if its denom begins with a digit. */
  lemma LargerReadingIff(api: Api, id: string, coin: Coin, recipient: string)
    requires Bech32Like(api) && api.addrOk(recipient) && PlainKey(api, KeyOf(id, coin, recipient))
    ensures LargerReading(api, KeyOf(id, coin, recipient), coin.amount) <==> coin.amount > 0 && !NonDigitStart(coin.denom)
  {
    var key := KeyOf(id, coin, recipient);
    if coin.amount > 0 && !NonDigitStart(coin.denom) {
      ShiftedDigit(id, coin.amount, coin.denom, recipient);
      var larger := Coin(coin.denom[1..], 10 * coin.amount + DigitValue(coin.denom[0]));
      assert KeyOf(id, larger, recipient) == key;
    } else if LargerReading(api, key, coin.amount) {
      var i, c, r :| api.addrOk(r) && KeyOf(i, c, r) == key && c.amount > coin.amount;
      SameKeyText(i, c.amount, c.denom, r, id, coin.amount, coin.denom, recipient);
      if coin.amount == 0 {
        ZeroReadings(c.amount, Lower(c.denom), Lower(coin.denom));
      } else {
        LowerKeepsNonDigitStart(coin.denom);
        AmountReadings(c.amount, Lower(c.denom), coin.amount, Lower(coin.denom));
      }
      assert false;
    }
  }

  // ---------- reachable states ----------

  /** What a reader can rely on in any reachable state. */
  lemma ReachableState(api: Api, start: World, steps: seq<Step>)
    requires Fresh(api, start)
    ensures var w := Run(api, start, steps);
      && w.st.config.threshold >= 1 && NoDup(w.st.config.trusted) && NoDup(TokenKeys(w.st.config.tokens))
      && (forall k :: k in w.st.pending ==>
            && (exists id :: k == KeyOf(id, w.st.pending[k].amount, w.st.pending[k].recipient))
            && NoDup(w.st.pending[k].providers)
            && forall a :: a in w.st.pending[k].providers ==>
                 exists v :: v in w.votes && v.voter == a && v.key == k && a in v.cfg.trusted)
      && (forall id :: id in w.st.sent ==>
            && |w.st.sent[id].providers| >= w.st.config.threshold
            && NoDup(w.st.sent[id].providers)
            && exists p :: p in w.payments && p.sentId == id && p.tx == w.st.sent[id]
                 && forall a :: a in p.tx.providers ==>
                      exists v :: v in w.votes && v.voter == a && v.key == p.key && a in v.cfg.trusted)
  {
    ReachableInv(api, start, steps);
    var w := Run(api, start, steps);
    forall k | k in w.st.pending
      ensures exists id :: k == KeyOf(id, w.st.pending[k].amount, w.st.pending[k].recipient)
      ensures forall a :: a in w.st.pending[k].providers ==>
                exists v :: v in w.votes && v.voter == a && v.key == k && a in v.cfg.trusted
    {
      FirstVote(api, w, k, w.st.pending[k]);
      forall a | a in w.st.pending[k].providers
        ensures exists v :: v in w.votes && v.voter == a && v.key == k && a in v.cfg.trusted
      {
        ProviderVoted(api, w, k, w.st.pending[k], a);
      }
    }
    forall id | id in w.st.sent
      ensures exists p :: p in w.payments && p.sentId == id && p.tx == w.st.sent[id]
                && forall a :: a in p.tx.providers ==>
                     exists v :: v in w.votes && v.voter == a && v.key == p.key && a in v.cfg.trusted
    {
      var p :| p in w.payments && p.sentId == id && p.tx == w.st.sent[id];
      forall a | a in p.tx.providers
        ensures exists v :: v in w.votes && v.voter == a && v.key == p.key && a in v.cfg.trusted
      {
        ProviderVoted(api, w, p.key, p.tx, a);
      }
    }
  }

  lemma ProviderVoted(api: Api, w: World, key: string, tx: Transaction, a: string)
    requires Inv(api, w) && Backed(w.votes, key, tx) && a in tx.providers
    ensures exists v :: v in w.votes && v.voter == a && v.key == key && a in v.cfg.trusted
  {
    var i :| 0 <= i < |tx.providers| && tx.providers[i] == a;
    assert HasPlace(w.votes, key, tx, i);
    var v :| v in w.votes && IsPlace(v, key, tx, i);
    assert VoteOk(api, w, v);
  }

  /** The first vote of an entry fixed its amount and recipient. */
  lemma FirstVote(api: Api, w: World, key: string, tx: Transaction)
    requires Inv(api, w) && Backed(w.votes, key, tx)
    ensures exists v :: v in w.votes && v.key == key && v.amount == tx.amount && v.recipient == tx.recipient
                        && key == KeyOf(v.id, tx.amount, tx.recipient)
  {
    assert HasPlace(w.votes, key, tx, 0);
    var v :| v in w.votes && IsPlace(v, key, tx, 0);
    assert VoteOk(api, w, v);
  }

  // ---------- once per evidence id ----------

  ghost predicate VoteKept(w: World, v: VoteRecord) {
    v.id in w.st.sent || (v.key in w.st.pending && v.voter in w.st.pending[v.key].providers)
  }

  /** The key was paid at most once, under this id, and every vote for it is still on record. */
  ghost predicate PaidOnce(w: World, key: string, id: string) {
    && (forall p :: p in w.payments && p.key == key ==> p.sentId == id && key !in w.st.pending)
    && (forall i, j :: 0 <= i < j < |w.payments| && w.payments[i].key == key ==> w.payments[j].key != key)
    && (forall v :: v in w.votes && v.key == key ==> VoteKept(w, v))
  }

  lemma VoteHasOneId(api: Api, w: World, v: VoteRecord, id: string)
    requires VotesOk(api, w) && v in w.votes && OneId(api, v.key, id)
    ensures v.id == id && ('-' in id ==> v.amount.amount == 0)
  {
    assert VoteOk(api, w, v);
  }

  /** The id of a vote for a plain key can be read off the key. */
  lemma VoteIdFromKey(api: Api, w: World, v: VoteRecord)
    requires VotesOk(api, w) && v in w.votes && PlainKey(api, v.key)
    ensures ExtractId(v.key) == v.id && '-' !in v.id
  {
    assert VoteOk(api, w, v);
    ExtractRoundTrip(v.id, v.amount.amount, v.amount.denom, v.recipient);
  }

  /** What a vote does to storage: its key is pending with the voter in it, or its id is sent; other keys stay. */
  ghost predicate Voted(w: World, w': World, v: VoteRecord) {
    && v.id !in w.st.sent
    && w'.votes == w.votes + {v}
    && (forall k :: k in w.st.pending && k != v.key ==> k in w'.st.pending && w'.st.pending[k] == w.st.pending[k])
    && (forall k :: k in w'.st.pending ==> k in w.st.pending || k == v.key)
    && w.st.sent.Keys <= w'.st.sent.Keys
    && if |w'.payments| == |w.payments|
       then && w'.payments == w.payments && v.key in w'.st.pending
            && v.voter in w'.st.pending[v.key].providers
            && (if v.key in w.st.pending then Joined(w.st.pending[v.key], w'.st.pending[v.key], v.voter)
                else w'.st.pending[v.key].providers == [v.voter])
       else && |w'.payments| == |w.payments| + 1
            && w'.payments == w.payments + [w'.payments[|w.payments|]]
            && w'.payments[|w.payments|].key == v.key && w'.payments[|w.payments|].sentId == v.id
            && w'.payments[|w.payments|].auto && v.id in w'.st.sent && v.key !in w'.st.pending
  }

  ghost predicate Joined(tx: Transaction, tx': Transaction, voter: string) {
    tx' == tx.(providers := tx.providers + [voter])
  }

  lemma VoteEffect(api: Api, w: World, c: Step)
    requires c.Call? && c.msg.ThresholdBankSend? && Apply(api, w, c).Ok?
    ensures Voted(w, Next(api, w, c), NewVote(w.st, c.sender, c.msg.id, c.msg.amount, c.msg.recipient))
  {
  }

  lemma VotedPaidOnce(api: Api, w: World, w': World, v: VoteRecord, key: string, id: string)
    requires Inv(api, w) && OneId(api, key, id) && PaidOnce(w, key, id) && VotesOk(api, w') && Voted(w, w', v)
    ensures PaidOnce(w', key, id)
  {
    if v.key == key {
      VoteHasOneId(api, w', v, id);
      forall p | p in w.payments ensures p.key != key {
        assert PaymentOk(w, p);
      }
    }
    forall u | u in w'.votes && u.key == key ensures VoteKept(w', u) {
      VoteHasOneId(api, w', u, id);
      assert u != v ==> VoteKept(w, u);
    }
  }

  /** What a manual execution does: the entry becomes the last payment, under the id read off its key. */
  ghost predicate Executed(w: World, w': World, p: Payment) {
    && p.key in w.st.pending && p.tx == w.st.pending[p.key] && p.sentId == ExtractId(p.key) && !p.auto
    && p.tx.amount.amount > 0
    && w'.st.pending == w.st.pending - {p.key}
    && w'.st.sent == w.st.sent[p.sentId := p.tx]
    && w'.votes == w.votes && w'.payments == w.payments + [p]
  }

  lemma ExecuteEffect(api: Api, w: World, c: Step)
    requires c.Call? && c.msg.ExecutePending? && Apply(api, w, c).Ok?
    ensures |Next(api, w, c).payments| > |w.payments|
    ensures Executed(w, Next(api, w, c), Next(api, w, c).payments[|w.payments|])
  {
  }

  /** What is executed by hand has a positive amount, so its id has no dash and is the one its key names. */
  lemma ExecutedUnderOneId(api: Api, w: World, w': World, p: Payment, id: string)
    requires Inv(api, w) && Executed(w, w', p) && OneId(api, p.key, id)
    ensures p.sentId == id
  {
    FirstVote(api, w, p.key, p.tx);
    var v :| v in w.votes && v.key == p.key && v.amount == p.tx.amount && v.recipient == p.tx.recipient;
    assert VoteOk(api, w, v);
    VoteHasOneId(api, w, v, id);
    ExtractRoundTrip(v.id, v.amount.amount, v.amount.denom, v.recipient);
  }

  lemma ExecutedPaidOnce(api: Api, w: World, w': World, p: Payment, key: string, id: string)
    requires Inv(api, w) && OneId(api, key, id) && PaidOnce(w, key, id) && Executed(w, w', p)
    ensures PaidOnce(w', key, id)
  {
    if p.key == key {
      ExecutedUnderOneId(api, w, w', p, id);
    }
    forall u | u in w'.votes && u.key == key ensures VoteKept(w', u) {
      VoteHasOneId(api, w, u, id);
      assert VoteKept(w, u);
    }
    assert forall q :: q in w'.payments ==> q in w.payments || q == p;
  }

  lemma StepPaidOnce(api: Api, w: World, step: Step, key: string, id: string)
    requires Inv(api, w) && OneId(api, key, id) && PaidOnce(w, key, id)
    ensures PaidOnce(Next(api, w, step), key, id)
  {
    var w' := Next(api, w, step);
    if Apply(api, w, step).Ok? {
      if step.Call? && step.msg.ThresholdBankSend? {
        VoteInv(api, w, step);
        VoteEffect(api, w, step);
        VotedPaidOnce(api, w, w', NewVote(w.st, step.sender, step.msg.id, step.msg.amount, step.msg.recipient), key, id);
      } else if step.Call? && step.msg.ExecutePending? {
        ExecuteEffect(api, w, step);
        ExecutedPaidOnce(api, w, w', w'.payments[|w.payments|], key, id);
      } else {
        QuietStep(api, w, step);
        assert forall v :: v in w'.votes && v.key == key ==> VoteKept(w, v);
      }
    }
  }

  /** Steps other than votes and executions touch neither map, and pay nobody. */
  lemma QuietStep(api: Api, w: World, step: Step)
    requires step.Call? ==> !step.msg.ThresholdBankSend? && !step.msg.ExecutePending?
    ensures var w' := Next(api, w, step);
      && w'.st.pending == w.st.pending && w'.st.sent == w.st.sent
      && w'.votes == w.votes && w'.payments == w.payments
  {
  }

  lemma {:induction false} RunPaidOnce(api: Api, w: World, steps: seq<Step>, key: string, id: string)
    requires Inv(api, w) && OneId(api, key, id) && PaidOnce(w, key, id)
    ensures Inv(api, Run(api, w, steps)) && PaidOnce(Run(api, w, steps), key, id)
    decreases |steps|
  {
    if steps != [] {
      StepInv(api, w, steps[0]);
      StepPaidOnce(api, w, steps[0], key, id);
      RunPaidOnce(api, Next(api, w, steps[0]), steps[1..], key, id);
    }
  }

  lemma ReachablePaidOnce(api: Api, start: World, steps: seq<Step>, key: string, id: string)
    requires Fresh(api, start) && OneId(api, key, id)
    ensures Inv(api, Run(api, start, steps)) && PaidOnce(Run(api, start, steps), key, id)
  {
    FreshInv(api, start);
    RunPaidOnce(api, start, steps, key, id);
  }

  lemma PlainPaidOnce(api: Api, start: World, steps: seq<Step>, key: string)
    requires Fresh(api, start) && PlainKey(api, key)
    ensures Inv(api, Run(api, start, steps)) && PaidOnce(Run(api, start, steps), key, ExtractId(key))
  {
    PlainIsOneId(api, key);
    ReachablePaidOnce(api, start, steps, key, ExtractId(key));
  }

  /**
   * Nothing is assumed of any voter: an evidence id with one id is paid at most once in any run, and
   * once paid it stays unpayable. `Readings.PaidTwiceIff` shows that no other evidence id has this property.
   */
  lemma OncePerEvidenceId(api: Api, start: World, steps: seq<Step>, key: string, id: string)
    requires Fresh(api, start) && OneId(api, key, id)
    ensures var w := Run(api, start, steps);
      && (forall i, j :: 0 <= i < j < |w.payments| && w.payments[i].key == key ==> w.payments[j].key != key)
      && (forall p :: p in w.payments && p.key == key ==>
            key !in w.st.pending && p.sentId == id && id in w.st.sent)
  {
    ReachablePaidOnce(api, start, steps, key, id);
    var w := Run(api, start, steps);
    forall p | p in w.payments && p.key == key ensures p.sentId in w.st.sent {
      assert PaymentOk(w, p);
    }
  }

  // ---------- ids paid again ----------

  /** The address voted for the key under an id other than `id`, which takes a dash in it. */
  ghost predicate VotedOtherwise(w: World, key: string, id: string, a: string) {
    exists v :: v in w.votes && v.key == key && v.voter == a && v.id != id
  }

  /** Two payments of one key under one id. */
  ghost predicate Repays(p: Payment, q: Payment, id: string) {
    p.key == q.key && p.sentId == id == q.sentId
  }

  /** Once a key is paid under `id`, whatever gathers or is paid there later comes from votes under other ids. */
  ghost predicate PaidAgainOtherwise(w: World, id: string) {
    && (forall p, a :: p in w.payments && p.sentId == id && p.key in w.st.pending && a in w.st.pending[p.key].providers ==>
          VotedOtherwise(w, p.key, id, a))
    && (forall i, j, a :: 0 <= i < j < |w.payments| && Repays(w.payments[i], w.payments[j], id)
                          && a in w.payments[j].tx.providers
          ==> VotedOtherwise(w, w.payments[j].key, id, a))
    && (forall i, j :: 0 <= i < j < |w.payments| && w.payments[j].auto && w.payments[j].sentId == id ==>
          w.payments[i].sentId != id)
  }

  lemma OtherwiseGrows(w: World, w': World, key: string, id: string, a: string)
    requires VotedOtherwise(w, key, id, a) && w.votes <= w'.votes
    ensures VotedOtherwise(w', key, id, a)
  {
    var v :| v in w.votes && v.key == key && v.voter == a && v.id != id;
    assert v in w'.votes;
  }

  lemma VotedAgainOtherwise(api: Api, w: World, w': World, v: VoteRecord, id: string)
    requires Inv(api, w) && PaidAgainOtherwise(w, id) && Voted(w, w', v)
    ensures PaidAgainOtherwise(w', id)
  {
    forall p | p in w.payments ensures p.sentId in w.st.sent {
      assert PaymentOk(w, p);
    }
    forall p, a | p in w'.payments && p.sentId == id && p.key in w'.st.pending && a in w'.st.pending[p.key].providers
      ensures VotedOtherwise(w', p.key, id, a)
    {
      if p.key == v.key && a == v.voter {
        assert v in w'.votes;
      } else {
        OtherwiseGrows(w, w', p.key, id, a);
      }
    }
    forall i, j, a | 0 <= i < j < |w'.payments| && Repays(w'.payments[i], w'.payments[j], id)
                     && a in w'.payments[j].tx.providers
      ensures VotedOtherwise(w', w'.payments[j].key, id, a)
    {
      assert w'.payments[i] == w.payments[i];
      assert w'.payments[j] == w.payments[j];
      OtherwiseGrows(w, w', w.payments[j].key, id, a);
    }
  }

  lemma ExecutedAgainOtherwise(w: World, w': World, p: Payment, id: string)
    requires PaidAgainOtherwise(w, id) && Executed(w, w', p)
    ensures PaidAgainOtherwise(w', id)
  {
    forall q, a | q in w'.payments && q.sentId == id && q.key in w'.st.pending && a in w'.st.pending[q.key].providers
      ensures VotedOtherwise(w', q.key, id, a)
    {
      OtherwiseGrows(w, w', q.key, id, a);
    }
    forall i, j, a | 0 <= i < j < |w'.payments| && Repays(w'.payments[i], w'.payments[j], id)
                     && a in w'.payments[j].tx.providers
      ensures VotedOtherwise(w', w'.payments[j].key, id, a)
    {
      assert w'.payments[i] == w.payments[i] && w.payments[i] in w.payments;
      OtherwiseGrows(w, w', w'.payments[j].key, id, a);
    }
  }

  lemma StepAgainOtherwise(api: Api, w: World, step: Step, id: string)
    requires Inv(api, w) && PaidAgainOtherwise(w, id)
    ensures PaidAgainOtherwise(Next(api, w, step), id)
  {
    var w' := Next(api, w, step);
    if Apply(api, w, step).Ok? {
      if step.Call? && step.msg.ThresholdBankSend? {
        VoteEffect(api, w, step);
        VotedAgainOtherwise(api, w, w', NewVote(w.st, step.sender, step.msg.id, step.msg.amount, step.msg.recipient), id);
      } else if step.Call? && step.msg.ExecutePending? {
        ExecuteEffect(api, w, step);
        ExecutedAgainOtherwise(w, w', w'.payments[|w.payments|], id);
      } else {
        QuietStep(api, w, step);
        assert forall k, a :: VotedOtherwise(w, k, id, a) ==> VotedOtherwise(w', k, id, a);
      }
    }
  }

  lemma {:induction false} RunAgainOtherwise(api: Api, w: World, steps: seq<Step>, id: string)
    requires Inv(api, w) && PaidAgainOtherwise(w, id)
    ensures Inv(api, Run(api, w, steps)) && PaidAgainOtherwise(Run(api, w, steps), id)
    decreases |steps|
  {
    if steps != [] {
      StepInv(api, w, steps[0]);
      StepAgainOtherwise(api, w, steps[0], id);
      RunAgainOtherwise(api, Next(api, w, steps[0]), steps[1..], id);
    }
  }

  // ---------- quorums ----------

  ghost function Voters(w: World, key: string): set<string> {
    set v | v in w.votes && v.key == key :: v.voter
  }

  /** Voters who backed another payload under a key that names this id. */
  ghost function Deviators(w: World, id: string, key: string): set<string> {
    set v | v in w.votes && ExtractId(v.key) == id && v.key != key :: v.voter
  }

  /** Voters who backed two payloads that name this id, or one of them under another id. */
  ghost function Equivocators(w: World, id: string): set<string> {
    set v, u | v in w.votes && u in w.votes && ExtractId(v.key) == id == ExtractId(u.key) && v.voter == u.voter
               && (v.key != u.key || v.id != id)
      :: v.voter
  }

  /** A payment rests on a threshold of distinct addresses that voted for exactly its key. */
  lemma PaymentQuorum(api: Api, w: World, p: Payment)
    requires Inv(api, w) && p in w.payments
    ensures Elems(p.tx.providers) <= Voters(w, p.key) <= w.everTrusted
    ensures |Elems(p.tx.providers)| >= w.st.config.threshold
  {
    assert PaymentOk(w, p);
    NoDupCard(p.tx.providers);
    forall a | a in p.tx.providers ensures a in Voters(w, p.key) {
      ProviderVoted(api, w, p.key, p.tx, a);
    }
    forall a | a in Voters(w, p.key) ensures a in w.everTrusted {
      var v :| v in w.votes && v.key == p.key && v.voter == a;
      assert VoteOk(api, w, v);
    }
  }

  /** The payment was recorded under this id, or is for a key that names it. */
  ghost predicate Touches(p: Payment, id: string) {
    p.sentId == id || ExtractId(p.key) == id
  }

  /** A payment recorded under a dash-free id is for a key that names the id. */
  lemma PaidKeyNamesId(api: Api, w: World, p: Payment)
    requires Inv(api, w) && p in w.payments && '-' !in p.sentId
    ensures ExtractId(p.key) == p.sentId
  {
    assert PaymentOk(w, p);
    if p.auto {
      var v :| v in w.votes && IsTrigger(v, p);
      assert VoteOk(api, w, v);
      ExtractRoundTrip(v.id, v.amount.amount, v.amount.denom, v.recipient);
    }
  }

  /**
   * Fewer than `threshold` deviating voters cannot redirect a payment, nor repeat it for a plain
   * key. The other voters, and the deviating ones, may vote for anything else at will.
   */
  lemma FaultTolerance(api: Api, start: World, steps: seq<Step>, id: string, key: string)
    requires Fresh(api, start) && '-' !in id
    requires |Deviators(Run(api, start, steps), id, key)| < Run(api, start, steps).st.config.threshold
    ensures var w := Run(api, start, steps);
      && (forall p :: p in w.payments && Touches(p, id) ==> p.key == key)
      && (PlainKey(api, key) ==>
            forall i, j :: 0 <= i < j < |w.payments| && Touches(w.payments[i], id) ==> !Touches(w.payments[j], id))
  {
    var w := Run(api, start, steps);
    ReachableInv(api, start, steps);
    forall p | p in w.payments && Touches(p, id) ensures p.key == key {
      QuorumDeviates(api, w, p, id, key);
    }
    if PlainKey(api, key) {
      PlainPaidOnce(api, start, steps, key);
    }
  }

  /** A quorum behind another key of the id consists of deviators. */
  lemma QuorumDeviates(api: Api, w: World, p: Payment, id: string, key: string)
    requires Inv(api, w) && p in w.payments && Touches(p, id) && '-' !in id
    ensures p.key == key || w.st.config.threshold <= |Deviators(w, id, key)|
  {
    if p.sentId == id {
      PaidKeyNamesId(api, w, p);
    }
    PaymentQuorum(api, w, p);
    if p.key != key {
      forall a | a in Elems(p.tx.providers) ensures a in Deviators(w, id, key) {
        var v :| v in w.votes && v.key == p.key && v.voter == a;
      }
      SubsetCard(Elems(p.tx.providers), Deviators(w, id, key));
    }
  }

  /** Two quorums of different payloads for one id overlap in equivocators only. */
  lemma DisjointQuorums(api: Api, w: World, p: Payment, q: Payment, id: string)
    requires Inv(api, w) && p in w.payments && q in w.payments
    requires ExtractId(p.key) == id == ExtractId(q.key) && p.key != q.key
    ensures 2 * w.st.config.threshold <= |w.everTrusted| + |Equivocators(w, id)|
  {
    var a, b := Elems(p.tx.providers), Elems(q.tx.providers);
    PaymentQuorum(api, w, p);
    PaymentQuorum(api, w, q);
    forall x | x in a * b ensures x in Equivocators(w, id) {
      var v :| v in w.votes && v.key == p.key && v.voter == x;
      var u :| u in w.votes && u.key == q.key && u.voter == x;
      assert v.key != u.key;
    }
    UnionCard(a, b);
    SubsetCard(a + b, w.everTrusted);
    SubsetCard(a * b, Equivocators(w, id));
  }

  /** Paying one key again under the same id takes a whole quorum of equivocators. */
  lemma AgainTakesQuorum(api: Api, w: World, i: nat, j: nat, id: string)
    requires Inv(api, w) && PaidAgainOtherwise(w, id) && i < j < |w.payments|
    requires Repays(w.payments[i], w.payments[j], id)
    requires ExtractId(w.payments[j].key) == id
    ensures 2 * w.st.config.threshold <= |w.everTrusted| + |Equivocators(w, id)|
  {
    var p := w.payments[j];
    var quorum := Elems(p.tx.providers);
    PaymentQuorum(api, w, p);
    forall a | a in quorum ensures a in Equivocators(w, id) {
      assert VotedOtherwise(w, p.key, id, a);
      var v :| v in w.votes && v.key == p.key && v.voter == a && v.id != id;
    }
    SubsetCard(quorum, Equivocators(w, id));
    SubsetCard(quorum, w.everTrusted);
  }

  /**
   * Quorum intersection with equivocators: if twice the threshold exceeds the addresses ever
   * trusted plus the equivocators of the id, the id is paid at most once, by both paths together.
   * For plain keys this includes payments recorded under any other id.
   */
  lemma QuorumIntersection(api: Api, start: World, steps: seq<Step>, id: string)
    requires Fresh(api, start)
    requires var w := Run(api, start, steps);
             2 * w.st.config.threshold > |w.everTrusted| + |Equivocators(w, id)|
    ensures var w := Run(api, start, steps);
      && (forall i, j :: 0 <= i < j < |w.payments| && w.payments[i].sentId == id ==> w.payments[j].sentId != id)
      && (forall i, j :: 0 <= i < j < |w.payments| && PlainKey(api, w.payments[i].key) && ExtractId(w.payments[i].key) == id
            ==> ExtractId(w.payments[j].key) != id)
  {
    var w := Run(api, start, steps);
    FreshInv(api, start);
    RunAgainOtherwise(api, start, steps, id);
    forall i, j | 0 <= i < j < |w.payments| && w.payments[i].sentId == id ensures w.payments[j].sentId != id {
      if w.payments[j].sentId == id {
        SameIdTwice(api, w, i, j, id);
      }
    }
    forall i, j | 0 <= i < j < |w.payments| && PlainKey(api, w.payments[i].key) && ExtractId(w.payments[i].key) == id
      ensures ExtractId(w.payments[j].key) != id
    {
      PlainPaidOnce(api, start, steps, w.payments[i].key);
      if ExtractId(w.payments[j].key) == id {
        DisjointQuorums(api, w, w.payments[i], w.payments[j], id);
        assert false;
      }
    }
  }

  lemma SameIdTwice(api: Api, w: World, i: nat, j: nat, id: string)
    requires Inv(api, w) && PaidAgainOtherwise(w, id) && i < j < |w.payments|
    requires w.payments[i].sentId == id == w.payments[j].sentId
    ensures 2 * w.st.config.threshold <= |w.everTrusted| + |Equivocators(w, id)|
  {
    var p, q := w.payments[i], w.payments[j];
    assert PaymentOk(w, q);
    assert !q.auto && id == ExtractId(q.key);
    ExtractIdDashFree(q.key);
    PaidKeyNamesId(api, w, p);
    if p.key == q.key {
      AgainTakesQuorum(api, w, i, j, id);
    } else {
      DisjointQuorums(api, w, p, q, id);
    }
  }

  /** An accepted vote pays exactly when it completes the threshold and lies within the cap. */
  lemma PaysExactlyAtThreshold(api: Api, w: World, c: Step)
    requires c.Call? && c.msg.ThresholdBankSend? && Apply(api, w, c).Ok?
    ensures var v := NewVote(w.st, c.sender, c.msg.id, c.msg.amount, c.msg.recipient);
      (|Next(api, w, c).payments| > |w.payments|)
      <==> (v.place == w.st.config.threshold && c.msg.amount.amount <= w.st.config.maxAmount)
  {
  }

  // ---------- payloads ----------

  /** What a stored or paid coin can be where `amount` is the coin asked for. */
  ghost predicate ReadingOf(coin: Coin, amount: Coin) {
    && coin.amount <= amount.amount
    && (coin.amount == amount.amount <==> NonDigitStart(coin.denom))
    && (NonDigitStart(coin.denom) ==> Lower(coin.denom) == Lower(amount.denom))
  }

  /**
   * Whoever voted first: the entry under the key of a payload has the payload's recipient, and its
   * amount unless the stored denom begins with a digit, in which case the amount is smaller.
   */
  lemma EntryHoldsPayload(api: Api, w: World, tx: Transaction, id: string, amount: Coin, recipient: string)
    requires Inv(api, w) && Bech32Like(api) && api.addrOk(recipient) && NonDigitStart(amount.denom)
    requires PlainKey(api, KeyOf(id, amount, recipient)) && Backed(w.votes, KeyOf(id, amount, recipient), tx)
    ensures tx.recipient == recipient && ReadingOf(tx.amount, amount)
  {
    var key := KeyOf(id, amount, recipient);
    FirstVote(api, w, key, tx);
    var v :| v in w.votes && v.key == key && v.amount == tx.amount && v.recipient == tx.recipient;
    assert VoteOk(api, w, v);
    SameKeyText(v.id, v.amount.amount, v.amount.denom, v.recipient, id, amount.amount, amount.denom, recipient);
    LowerKeepsNonDigitStart(amount.denom);
    LowerKeepsNonDigitStart(v.amount.denom);
    AmountReadings(v.amount.amount, Lower(v.amount.denom), amount.amount, Lower(amount.denom));
  }

  /**
   * The same in terms of the votes: an entry whose votes have dash-free ids has the recipient each
   * of its voters asked for, and of stored and voted coin one is a reading of the other.
   */
  lemma EntryHoldsVotedPayload(api: Api, w: World, key: string, tx: Transaction, v: VoteRecord)
    requires Inv(api, w) && Bech32Like(api) && Backed(w.votes, key, tx) && v in w.votes && v.key == key
    requires forall u :: u in w.votes && u.key == key ==> '-' !in u.id
    ensures tx.recipient == v.recipient
    ensures NonDigitStart(v.amount.denom) ==> ReadingOf(tx.amount, v.amount)
    ensures NonDigitStart(tx.amount.denom) ==> ReadingOf(v.amount, tx.amount)
  {
    FirstVote(api, w, key, tx);
    var u :| u in w.votes && u.key == key && u.amount == tx.amount && u.recipient == tx.recipient;
    assert VoteOk(api, w, v) && VoteOk(api, w, u);
    SameKeyText(v.id, v.amount.amount, v.amount.denom, v.recipient, u.id, u.amount.amount, u.amount.denom, u.recipient);
    LowerKeepsNonDigitStart(u.amount.denom);
    LowerKeepsNonDigitStart(v.amount.denom);
    if NonDigitStart(v.amount.denom) {
      AmountReadings(u.amount.amount, Lower(u.amount.denom), v.amount.amount, Lower(v.amount.denom));
    }
    if NonDigitStart(u.amount.denom) {
      AmountReadings(v.amount.amount, Lower(v.amount.denom), u.amount.amount, Lower(u.amount.denom));
    }
  }

  /** Fault tolerance in terms of the payment itself: its recipient and coin are those of the one honest payload. */
  lemma HonestPayloadPaid(api: Api, start: World, steps: seq<Step>, id: string, amount: Coin, recipient: string, p: Payment)
    requires Fresh(api, start) && Bech32Like(api) && api.addrOk(recipient)
    requires '-' !in id && NonDigitStart(amount.denom) && NoDigitAfterDash(amount.denom)
    requires p in Run(api, start, steps).payments && Touches(p, Lower(id))
    requires |Deviators(Run(api, start, steps), Lower(id), KeyOf(id, amount, recipient))|
             < Run(api, start, steps).st.config.threshold
    ensures p.key == KeyOf(id, amount, recipient) && p.sentId == Lower(id)
    ensures p.tx.recipient == recipient && ReadingOf(p.tx.amount, amount)
  {
    var w, key := Run(api, start, steps), KeyOf(id, amount, recipient);
    PlainKeyIff(api, id, amount, recipient);
    LowerKeepsDash(id);
    FaultTolerance(api, start, steps, Lower(id), key);
    PlainPaidOnce(api, start, steps, key);
    ExtractRoundTrip(id, amount.amount, amount.denom, recipient);
    ReachableInv(api, start, steps);
    assert PaymentOk(w, p);
    EntryHoldsPayload(api, w, p.tx, id, amount, recipient);
  }

  // ---------- over-cap transfers ----------

  /** The vote that completed the threshold of the pending entry was cast under a cap below what the entry holds. */
  ghost predicate CompletedAboveCap(w: World, key: string)
    requires key in w.st.pending && |w.st.pending[key].providers| >= w.st.config.threshold
  {
    exists v :: v in w.votes && v.key == key && 1 <= v.place == w.st.config.threshold
                && v.voter == w.st.pending[key].providers[v.place - 1] && v.cfg.maxAmount < w.st.pending[key].amount.amount
  }

  /**
   * A pending entry that has its votes was completed above the cap, unless its key has a reading of
   * a larger amount than the stored one. `Readings.ParkedWithinCapIff` shows that the exception is real
   * for every such coin, and `LargerReadingIff` which coins these are.
   */
  lemma ParkedAboveCap(api: Api, start: World, steps: seq<Step>, key: string)
    requires Fresh(api, start)
    requires var s := Run(api, start, steps).st;
      && key in s.pending && |s.pending[key].providers| >= s.config.threshold
      && !LargerReading(api, key, s.pending[key].amount.amount)
    ensures CompletedAboveCap(Run(api, start, steps), key)
  {
    var w := Run(api, start, steps);
    ReachableInv(api, start, steps);
    var tx, t := w.st.pending[key], w.st.config.threshold;
    assert Parked(w.votes, t, key, tx);
    var v :| v in w.votes && IsPlace(v, key, tx, t - 1) && v.cfg.maxAmount < v.amount.amount;
    assert VoteOk(api, w, v);
  }

  /** A further vote for a parked entry joins it and never pays it. */
  lemma ParkedVote(api: Api, w: World, c: Step, key: string)
    requires key in w.st.pending && |w.st.pending[key].providers| >= w.st.config.threshold
    requires c.Call? && c.msg.ThresholdBankSend? && Apply(api, w, c).Ok?
    ensures var w' := Next(api, w, c);
      && w'.st.config == w.st.config && key in w'.st.pending
      && (w'.st.pending[key] == w.st.pending[key] || Joined(w.st.pending[key], w'.st.pending[key], c.sender))
  {
    var v := NewVote(w.st, c.sender, c.msg.id, c.msg.amount, c.msg.recipient);
    if v.key != key {
      VoteEffect(api, w, c);
    }
  }

  lemma ParkedStep(api: Api, w: World, step: Step, key: string)
    requires Inv(api, w) && key in w.st.pending && |w.st.pending[key].providers| >= w.st.config.threshold
    requires step.Call? ==> step.msg != ExecutePending(key)
    ensures var w' := Next(api, w, step);
      && w'.st.config.threshold == w.st.config.threshold
      && key in w'.st.pending
      && w'.st.pending[key].amount == w.st.pending[key].amount
      && w'.st.pending[key].recipient == w.st.pending[key].recipient
      && w.st.pending[key].providers <= w'.st.pending[key].providers
  {
    if Apply(api, w, step).Ok? {
      if step.Call? && step.msg.ThresholdBankSend? {
        ParkedVote(api, w, step, key);
      } else if step.Call? && step.msg.ExecutePending? {
        assert Next(api, w, step).st.pending == w.st.pending - {step.msg.key};
      } else {
        UpdateEffect(api, w, step);
      }
    }
  }

  /** From then on only a manual execution of that key can take it away, whatever else happens. */
  lemma {:induction false} ParkedUntilExecuted(api: Api, w: World, steps: seq<Step>, key: string)
    requires Inv(api, w) && key in w.st.pending && |w.st.pending[key].providers| >= w.st.config.threshold
    requires forall i :: 0 <= i < |steps| && steps[i].Call? ==> steps[i].msg != ExecutePending(key)
    ensures var w' := Run(api, w, steps);
      && w'.st.config.threshold == w.st.config.threshold
      && key in w'.st.pending
      && w'.st.pending[key].amount == w.st.pending[key].amount
      && w'.st.pending[key].recipient == w.st.pending[key].recipient
      && w.st.pending[key].providers <= w'.st.pending[key].providers
    decreases |steps|
  {
    if steps != [] {
      StepInv(api, w, steps[0]);
      ParkedStep(api, w, steps[0], key);
      ParkedUntilExecuted(api, Next(api, w, steps[0]), steps[1..], key);
    }
  }

  // ---------- monotone parts of the state ----------

  /** What a run can only add to. */
  ghost predicate Grows(w: World, w': World) {
    && w.st.sent.Keys <= w'.st.sent.Keys
    && w.votes <= w'.votes
    && w.payments <= w'.payments
    && w.everTrusted <= w'.everTrusted
    && w.st.config.threshold == w'.st.config.threshold
    && w.st.config.tokens <= w'.st.config.tokens
    && (|w'.st.config.tokens| <= MAX_XRPL_TOKENS || w'.st.config.tokens == w.st.config.tokens)
    && w.st.config.version <= w'.st.config.version
    && (w.st.config.version == w'.st.config.version ==> w.st.config == w'.st.config)
  }

  lemma StepGrows(api: Api, w: World, step: Step)
    ensures Grows(w, Next(api, w, step))
  {
    if Apply(api, w, step).Ok? {
      if step.Call? && step.msg.ThresholdBankSend? {
        VoteEffect(api, w, step);
      } else if step.Call? && step.msg.ExecutePending? {
        ExecuteEffect(api, w, step);
      } else {
        UpdateEffect(api, w, step);
      }
    }
  }

  /**
   * Over any run: sent ids, votes, payments and tokens are only added, the threshold is fixed,
   * and the version number tells two configs of the run apart.
   */
  lemma {:induction false} RunGrows(api: Api, w: World, steps: seq<Step>)
    ensures Grows(w, Run(api, w, steps))
    decreases |steps|
  {
    if steps != [] {
      StepGrows(api, w, steps[0]);
      RunGrows(api, Next(api, w, steps[0]), steps[1..]);
    }
  }

  /** An accepted update raises the version by one; payments, votes and deposits leave the config alone. */
  lemma VersionStep(api: Api, w: World, step: Step)
    requires Apply(api, w, step).Ok?
    ensures var c, c' := w.st.config, Next(api, w, step).st.config;
      if step.Deposit? || step == Upgrade(None) || (step.Call? && (step.msg.ThresholdBankSend? || step.msg.ExecutePending?))
      then c' == c
      else c'.version == c.version + 1
  {
  }

  /** A token pair keeps its multiplier and activation date for ever. */
  lemma TokenFixedOnceAdded(api: Api, start: World, before: seq<Step>, after: seq<Step>, t: XrplToken, t': XrplToken)
    requires Fresh(api, start)
    requires t in Run(api, start, before).st.config.tokens
    requires t' in Run(api, start, before + after).st.config.tokens && TokenKey(t) == TokenKey(t')
    ensures t == t'
  {
    var w := Run(api, start, before);
    var w' := Run(api, start, before + after);
    RunConcat(api, start, before, after);
    RunGrows(api, w, after);
    ReachableInv(api, start, before + after);
    SameKeySameToken(w'.st.config.tokens, t, t');
  }

  lemma SameKeySameToken(ts: seq<XrplToken>, t: XrplToken, t': XrplToken)
    requires NoDup(TokenKeys(ts)) && t in ts && t' in ts && TokenKey(t) == TokenKey(t')
    ensures t == t'
  {
    var i :| 0 <= i < |ts| && ts[i] == t;
    var j :| 0 <= j < |ts| && ts[j] == t';
    assert TokenKeys(ts)[i] == TokenKeys(ts)[j];
  }

  // ---------- repeated delivery ----------

  /** An accepted call for a key with one id is refused in every later state when the same sender repeats it. */
  lemma RepeatRejected(api: Api, start: World, before: seq<Step>, c: Step, after: seq<Step>, again: Step)
    requires Fresh(api, start) && c.Call? && c.msg.ThresholdBankSend?
    requires Apply(api, Run(api, start, before), c).Ok?
    requires again.Call? && again.sender == c.sender && again.msg == c.msg
    requires OneId(api, KeyOf(Lower(c.msg.id), c.msg.amount, c.msg.recipient), Lower(c.msg.id))
    ensures var w := Run(api, start, before + [c] + after);
      && Apply(api, w, again).Err?
      && (c.sender in w.st.config.trusted && w.st.config.minAmount <= c.msg.amount.amount ==>
            Apply(api, w, again).error in {TransferAlreadySent, EvidenceAlreadyProvided})
  {
    var w0 := Run(api, start, before);
    var w1 := Next(api, w0, c);
    var w := Run(api, start, before + [c] + after);
    RunConcat(api, start, before, [c]);
    assert Run(api, w0, [c]) == w1 by {
      assert [c][1..] == [];
    }
    RunConcat(api, start, before + [c], after);
    RunGrows(api, w1, after);
    ReachablePaidOnce(api, start, before + [c] + after, KeyOf(Lower(c.msg.id), c.msg.amount, c.msg.recipient), Lower(c.msg.id));
    var v := NewVote(w0.st, c.sender, c.msg.id, c.msg.amount, c.msg.recipient);
    assert v in w1.votes;
    assert VoteKept(w, v);
  }

  /** So a second delivery of an accepted vote, wherever it falls, changes nothing. */
  lemma DuplicateDeliveryIrrelevant(api: Api, start: World, before: seq<Step>, c: Step, between: seq<Step>,
                                    again: Step, after: seq<Step>)
    requires Fresh(api, start) && c.Call? && c.msg.ThresholdBankSend?
    requires Apply(api, Run(api, start, before), c).Ok?
    requires again.Call? && again.sender == c.sender && again.msg == c.msg
    requires OneId(api, KeyOf(Lower(c.msg.id), c.msg.amount, c.msg.recipient), Lower(c.msg.id))
    ensures Run(api, start, before + [c] + between + [again] + after)
         == Run(api, start, before + [c] + between + after)
  {
    var prefix := before + [c] + between;
    RepeatRejected(api, start, before, c, between, again);
    RunConcat(api, start, prefix + [again], after);
    RunConcat(api, start, prefix, [again]);
    RunConcat(api, start, prefix, after);
    assert [again][1..] == [];
  }
}
