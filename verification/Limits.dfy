/**
 * Where the guarantees end: for each hypothesis of the safety results, runs of the same
 * contract that break the conclusion as soon as the hypothesis is dropped.
 */
module Limits {
  import opened Prelude
  import opened EvidenceId
  import opened ContractModel
  import opened Chain
  import opened Safety
  import opened Ledger

  /** A contract with the given trusted list and threshold, and one cap for automatic sends. */
  function Open(owner: string, trusted: seq<string>, threshold: nat, maxAmount: nat): InstantiateMsg {
    InstantiateMsg(owner, trusted, threshold, 0, maxAmount, [])
  }

  lemma OpenStarts(api: Api, owner: string, trusted: seq<string>, threshold: nat, maxAmount: nat)
    requires api.addrOk(owner) && 1 <= threshold <= |trusted| && NoDup(trusted)
    requires forall i :: 0 <= i < |trusted| ==> api.addrOk(trusted[i])
    ensures Instantiate(api, Open(owner, trusted, threshold, maxAmount))
         == Ok(State(Config(owner, trusted, threshold, 0, maxAmount, [], 1), map[], map[]))
  {
    TrustedErrorMeaning(api, trusted);
  }

  function Started(owner: string, trusted: seq<string>, threshold: nat, maxAmount: nat): World {
    Start(State(Config(owner, trusted, threshold, 0, maxAmount, [], 1), map[], map[]), map[])
  }

  lemma StartedFresh(api: Api, owner: string, trusted: seq<string>, threshold: nat, maxAmount: nat)
    requires api.addrOk(owner) && 1 <= threshold <= |trusted| && NoDup(trusted)
    requires forall i :: 0 <= i < |trusted| ==> api.addrOk(trusted[i])
    ensures Fresh(api, Started(owner, trusted, threshold, maxAmount))
  {
    OpenStarts(api, owner, trusted, threshold, maxAmount);
    assert IsFresh(api, Started(owner, trusted, threshold, maxAmount), Open(owner, trusted, threshold, maxAmount), map[]);
  }

  function VoteBy(voter: string, id: string, amount: Coin, recipient: string): Step {
    Call(voter, [], true, ThresholdBankSend(id, amount, recipient))
  }

  function ExecuteBy(sender: string, amount: Coin, key: string): Step {
    Call(sender, [amount], true, ExecutePending(key))
  }

  /** One sole-voter round: an over-cap vote parks the payload, a funded execution pays it. */
  lemma VoteThenExecute(api: Api, w: World, voter: string, id: string, amount: Coin, recipient: string)
    requires w.st.config.trusted == [voter] && w.st.config.threshold == 1
    requires w.st.config.minAmount == 0 && w.st.config.maxAmount < amount.amount
    requires api.addrOk(recipient) && Lower(id) !in w.st.sent
    requires w.st.pending == map[]
    ensures var key := KeyOf(Lower(id), amount, recipient);
      var w' := Next(api, Next(api, w, VoteBy(voter, id, amount, recipient)), ExecuteBy(voter, amount, key));
      var tx := Transaction(amount, recipient, [voter]);
      && w'.st == w.st.(sent := w.st.sent[ExtractId(key) := tx])
      && w'.payments == w.payments + [Payment(key, ExtractId(key), tx, false, w.st.config)]
  {
    var key := KeyOf(Lower(id), amount, recipient);
    var w1 := Next(api, w, VoteBy(voter, id, amount, recipient));
    var tx := Transaction(amount, recipient, [voter]);
    assert w1.st == w.st.(pending := map[key := tx]);
    assert w1.payments == w.payments && w1.st.config == w.st.config;
    var e := ExecuteBy(voter, amount, key);
    assert ExecutePendingTx(w1.st, [amount], key) == Ok(Pay(w1.st, key, ExtractId(key), tx));
    assert map[key := tx] - {key} == map[];
    assert [amount][..0] == [];
    assert CreditAll(w1.balance, [amount]) == Credit(w1.balance, amount);
  }

  /** Every id with a dash can have the very same evidence id paid twice. */
  lemma DashedIdPaidTwice(api: Api, owner: string, voter: string, id: string, amount: Coin, recipient: string)
    requires api.addrOk(owner) && api.addrOk(voter) && api.addrOk(recipient)
    requires '-' in id && amount.amount > 0
    ensures var key := KeyOf(Lower(id), amount, recipient);
      var round := [VoteBy(voter, id, amount, recipient), ExecuteBy(voter, amount, key)];
      var start := Started(owner, [voter], 1, 0);
      var w := Run(api, start, round + round);
      Fresh(api, start) && |w.payments| == 2 && w.payments[0].key == key == w.payments[1].key
  {
    var key := KeyOf(Lower(id), amount, recipient);
    var v, e := VoteBy(voter, id, amount, recipient), ExecuteBy(voter, amount, key);
    var start := Started(owner, [voter], 1, 0);
    StartedFresh(api, owner, [voter], 1, 0);
    LowerIdempotent(id);
    LowerKeepsDash(id);
    ExtractRoundTrip(Lower(id), amount.amount, amount.denom, recipient);
    VoteThenExecute(api, start, voter, id, amount, recipient);
    var w1 := Next(api, Next(api, start, v), e);
    VoteThenExecute(api, w1, voter, id, amount, recipient);
    RunTwo(api, start, v, e);
    RunTwo(api, w1, v, e);
    RunConcat(api, start, [v, e], [v, e]);
  }

  lemma RunTwo(api: Api, w: World, a: Step, b: Step)
    ensures Run(api, w, [a, b]) == Next(api, Next(api, w, a), b)
  {
    assert [a, b][1..] == [b];
    assert [b][1..] == [];
    assert Run(api, w, [a, b]) == Run(api, Next(api, w, a), [b]);
    assert Run(api, Next(api, w, a), [b]) == Run(api, Next(api, Next(api, w, a), b), []);
  }

  // ---------- the quorum bound cannot be improved ----------

  function VotesBy(voters: seq<string>, id: string, amount: Coin, recipient: string): seq<Step> {
    seq(|voters|, i requires 0 <= i < |voters| => VoteBy(voters[i], id, amount, recipient))
  }

  /** `votes` are all by the given voters for the given payload, or were there before. */
  ghost predicate OnlyNew(before: set<VoteRecord>, votes: set<VoteRecord>, key: string, id: string, tx: Transaction,
                          voters: seq<string>) {
    forall v :: v in votes ==>
      v in before || (v.key == key && v.id == id && v.amount == tx.amount && v.recipient == tx.recipient && v.voter in voters)
  }

  /** From `w` to `w'` nothing happened but votes by `voters` under `key`, which now holds `tx`. */
  ghost predicate PiledUp(w: World, w': World, key: string, id: string, tx: Transaction, voters: seq<string>) {
    && w'.st.config == w.st.config && w'.st.sent == w.st.sent
    && w'.payments == w.payments && w'.everTrusted == w.everTrusted && w'.balance == w.balance
    && (tx.providers != [] ==> key in w'.st.pending && w'.st.pending[key] == tx)
    && (forall k :: k != key ==> (k in w'.st.pending <==> k in w.st.pending))
    && (forall k :: k != key && k in w.st.pending ==> w'.st.pending[k] == w.st.pending[k])
    && OnlyNew(w.votes, w'.votes, key, id, tx, voters)
  }

  /** The entry gathered so far; with no provider yet it is not stored. */
  ghost predicate Gathered(s: State, key: string, tx: Transaction) {
    if tx.providers == [] then key !in s.pending else key in s.pending && s.pending[key] == tx
  }

  /** Votes by distinct trusted voters pile up in one pending entry, above the cap or short of the threshold. */
  lemma {:induction false} VotesPileUp(api: Api, w: World, done: seq<string>, voters: seq<string>,
                                       id: string, amount: Coin, recipient: string)
    requires NoDup(done + voters) && forall a :: a in voters ==> a in w.st.config.trusted
    requires api.addrOk(recipient) && Lower(id) !in w.st.sent
    requires w.st.config.minAmount <= amount.amount
    requires w.st.config.maxAmount < amount.amount || |done + voters| < w.st.config.threshold
    requires Gathered(w.st, KeyOf(Lower(id), amount, recipient), Transaction(amount, recipient, done))
    requires forall a :: a in w.st.config.trusted ==> a in w.everTrusted
    ensures PiledUp(w, Run(api, w, VotesBy(voters, id, amount, recipient)),
                    KeyOf(Lower(id), amount, recipient), Lower(id), Transaction(amount, recipient, done + voters), voters)
    decreases |voters|
  {
    var key := KeyOf(Lower(id), amount, recipient);
    var steps := VotesBy(voters, id, amount, recipient);
    if voters == [] {
      assert done + voters == done;
    } else {
      var a, rest := voters[0], voters[1..];
      NoDupHead(done, voters);
      var w1 := Next(api, w, steps[0]);
      OneVote(api, w, done, a, id, amount, recipient);
      assert steps[1..] == VotesBy(rest, id, amount, recipient);
      assert (done + [a]) + rest == done + voters;
      VotesPileUp(api, w1, done + [a], rest, id, amount, recipient);
    }
  }

  /** Votes for a new payload above the cap. */
  lemma NewPile(api: Api, w: World, voters: seq<string>, id: string, amount: Coin, recipient: string)
    requires NoDup(voters) && forall a :: a in voters ==> a in w.st.config.trusted
    requires forall a :: a in w.st.config.trusted ==> a in w.everTrusted
    requires api.addrOk(recipient) && Lower(id) !in w.st.sent && KeyOf(Lower(id), amount, recipient) !in w.st.pending
    requires w.st.config.minAmount <= amount.amount && w.st.config.maxAmount < amount.amount
    ensures PiledUp(w, Run(api, w, VotesBy(voters, id, amount, recipient)),
                    KeyOf(Lower(id), amount, recipient), Lower(id), Transaction(amount, recipient, voters), voters)
  {
    assert [] + voters == voters;
    VotesPileUp(api, w, [], voters, id, amount, recipient);
  }

  lemma OneVote(api: Api, w: World, done: seq<string>, a: string, id: string, amount: Coin, recipient: string)
    requires a in w.st.config.trusted && a !in done
    requires api.addrOk(recipient) && Lower(id) !in w.st.sent
    requires w.st.config.minAmount <= amount.amount
    requires w.st.config.maxAmount < amount.amount || |done| + 1 < w.st.config.threshold
    requires Gathered(w.st, KeyOf(Lower(id), amount, recipient), Transaction(amount, recipient, done))
    requires forall a :: a in w.st.config.trusted ==> a in w.everTrusted
    ensures var key := KeyOf(Lower(id), amount, recipient);
      var w' := Next(api, w, VoteBy(a, id, amount, recipient));
      && w'.st == w.st.(pending := w.st.pending[key := Transaction(amount, recipient, done + [a])])
      && w'.payments == w.payments && w'.everTrusted == w.everTrusted && w'.balance == w.balance
      && w'.votes == w.votes + {NewVote(w.st, a, id, amount, recipient)}
  {
    var key := KeyOf(Lower(id), amount, recipient);
    assert done == [] ==> done + [a] == [a];
    assert Tally(w.st, key, a, amount, recipient) == Ok(Transaction(amount, recipient, done + [a]));
  }

  lemma ExecuteParked(api: Api, w: World, sender: string, key: string)
    requires key in w.st.pending && |w.st.pending[key].providers| >= w.st.config.threshold
    requires w.st.pending[key].amount.amount > 0
    requires forall a :: a in w.st.config.trusted ==> a in w.everTrusted
    ensures var tx := w.st.pending[key];
      var w' := Next(api, w, ExecuteBy(sender, tx.amount, key));
      && w'.st == Pay(w.st, key, ExtractId(key), tx).st
      && w'.payments == w.payments + [Payment(key, ExtractId(key), tx, false, w.st.config)]
      && w'.votes == w.votes && w'.everTrusted == w.everTrusted
  {
    var tx := w.st.pending[key];
    assert [tx.amount][..0] == [];
    assert CreditAll(w.balance, [tx.amount]) == Credit(w.balance, tx.amount);
    assert ExecutePendingTx(w.st, [tx.amount], key) == Ok(Pay(w.st, key, ExtractId(key), tx));
    assert Apply(api, w, ExecuteBy(sender, tx.amount, key)).Ok?;
  }

  /**
   * The guarantee in the other direction: a threshold of distinct trusted voters is enough. From
   * any world where the payload is fundable, within the limits, and new or gathered so far with
   * the very coin asked for, the missing votes pay it.
   */
  lemma ThresholdOfVotesPays(api: Api, w: World, done: seq<string>, voters: seq<string>,
                             id: string, amount: Coin, recipient: string)
    requires NoDup(done + voters) && voters != [] && |done + voters| == w.st.config.threshold
    requires forall a :: a in voters ==> a in w.st.config.trusted
    requires forall a :: a in w.st.config.trusted ==> a in w.everTrusted
    requires api.addrOk(recipient) && Lower(id) !in w.st.sent
    requires Gathered(w.st, KeyOf(Lower(id), amount, recipient), Transaction(amount, recipient, done))
    requires w.st.config.minAmount <= amount.amount <= w.st.config.maxAmount
    requires Balance(w.balance, amount.denom) >= amount.amount
    ensures var key := KeyOf(Lower(id), amount, recipient);
      var w' := Run(api, w, VotesBy(voters, id, amount, recipient));
      w'.payments == w.payments + [Payment(key, Lower(id), Transaction(amount, recipient, done + voters), true, w.st.config)]
  {
    var n := |voters| - 1;
    var first, last := voters[..n], voters[n];
    assert voters == first + [last];
    ConcatAssoc(done, first, [last]);
    NoDupHead(done + first, [last]);
    NoDupFront(done + first, [last]);
    AllButLast(api, w, done, first, id, amount, recipient);
    LastVoteApart(api, w, first, last, id, amount, recipient);
    LastVotePays(api, Run(api, w, VotesBy(first, id, amount, recipient)), done + first, last, id, amount, recipient);
  }

  lemma AllButLast(api: Api, w: World, done: seq<string>, voters: seq<string>, id: string, amount: Coin, recipient: string)
    requires NoDup(done + voters) && |done + voters| < w.st.config.threshold
    requires forall a :: a in voters ==> a in w.st.config.trusted
    requires forall a :: a in w.st.config.trusted ==> a in w.everTrusted
    requires api.addrOk(recipient) && Lower(id) !in w.st.sent && w.st.config.minAmount <= amount.amount
    requires Gathered(w.st, KeyOf(Lower(id), amount, recipient), Transaction(amount, recipient, done))
    ensures var w' := Run(api, w, VotesBy(voters, id, amount, recipient));
      && w'.st.config == w.st.config && w'.st.sent == w.st.sent
      && w'.balance == w.balance && w'.payments == w.payments
      && Gathered(w'.st, KeyOf(Lower(id), amount, recipient), Transaction(amount, recipient, done + voters))
  {
    VotesPileUp(api, w, done, voters, id, amount, recipient);
    assert voters == [] ==> done + voters == done;
  }

  lemma LastVoteApart(api: Api, w: World, first: seq<string>, last: string, id: string, amount: Coin, recipient: string)
    ensures Run(api, w, VotesBy(first + [last], id, amount, recipient))
         == Next(api, Run(api, w, VotesBy(first, id, amount, recipient)), VoteBy(last, id, amount, recipient))
  {
    var v := VoteBy(last, id, amount, recipient);
    assert VotesBy(first + [last], id, amount, recipient) == VotesBy(first, id, amount, recipient) + [v];
    RunConcat(api, w, VotesBy(first, id, amount, recipient), [v]);
    assert [v][1..] == [];
  }

  // ---------- entries that cannot be paid ----------

  /** The step brings no coin of this denom to the contract. */
  ghost predicate Avoids(step: Step, denom: string) {
    match step
    case Deposit(coin) => coin.denom != denom
    case Call(_, funds, _, _) => forall coin :: coin in funds ==> coin.denom != denom
    case Upgrade(_) => true
  }

  /** The entry asks for more of its stored coin than the contract holds. */
  ghost predicate Unfunded(w: World, key: string, coin: Coin) {
    key in w.st.pending && w.st.pending[key].amount == coin && Balance(w.balance, coin.denom) < coin.amount
  }

  ghost predicate NotPaidSince(w: World, w': World, key: string) {
    w.payments <= w'.payments && forall i :: |w.payments| <= i < |w'.payments| ==> w'.payments[i].key != key
  }

  lemma {:induction false} NoneOfDenom(coins: seq<Coin>, denom: string)
    requires forall coin :: coin in coins ==> coin.denom != denom
    ensures Total(coins, denom) == 0
  {
    if coins != [] {
      var n := |coins| - 1;
      assert coins[n] in coins;
      assert forall coin :: coin in coins[..n] ==> coin in coins;
      NoneOfDenom(coins[..n], denom);
    }
  }

  lemma UnfundedStep(api: Api, w: World, step: Step, key: string, coin: Coin)
    requires Unfunded(w, key, coin) && Avoids(step, coin.denom)
    ensures var w' := Next(api, w, step);
      Unfunded(w', key, coin) && NotPaidSince(w, w', key)
  {
    if step.Call? {
      NoneOfDenom(step.funds, coin.denom);
      CreditAllBalance(w.balance, step.funds, coin.denom);
      if Apply(api, w, step).Ok? {
        var o := Execute(api, w.st, step.sender, step.funds, step.msg).value;
        UnfundedOutcome(api, w.st, step, o, key, coin);
        SettleLowers(api, step.bankOk, CreditAll(w.balance, step.funds), o.payout, coin.denom);
      }
    }
  }

  /** A call leaves the entry with its coin or asks the bank to send that coin. */
  lemma UnfundedOutcome(api: Api, s: State, c: Step, o: Outcome, key: string, coin: Coin)
    requires c.Call? && Execute(api, s, c.sender, c.funds, c.msg) == Ok(o)
    requires key in s.pending && s.pending[key].amount == coin
    ensures if o.payout.Some? && o.payout.value.key == key then o.payout.value.tx.amount == coin
            else key in o.st.pending && o.st.pending[key].amount == coin
  {
  }

  /** The bank only takes from the balance, and never more than there is. */
  lemma SettleLowers(api: Api, bankOk: bool, b: map<string, nat>, payout: Option<Payout>, denom: string)
    requires Settle(api, bankOk, b, payout).Some?
    ensures Balance(Settle(api, bankOk, b, payout).value, denom) <= Balance(b, denom)
    ensures payout.Some? ==> Balance(b, payout.value.tx.amount.denom) >= payout.value.tx.amount.amount
  {
  }

  /** Without a further coin of that denom the entry is never paid, whatever else happens. */
  lemma {:induction false} UnfundedForEver(api: Api, w: World, steps: seq<Step>, key: string, coin: Coin)
    requires Unfunded(w, key, coin) && forall s :: s in steps ==> Avoids(s, coin.denom)
    ensures var w' := Run(api, w, steps);
      Unfunded(w', key, coin) && NotPaidSince(w, w', key)
    decreases |steps|
  {
    if steps != [] {
      assert steps[0] in steps && forall s :: s in steps[1..] ==> s in steps;
      UnfundedStep(api, w, steps[0], key, coin);
      UnfundedForEver(api, Next(api, w, steps[0]), steps[1..], key, coin);
    }
  }

  /**
   * One trusted address can keep a transfer from ever being paid: it votes first with another coin
   * of the same key, of which the contract holds too little. No later vote or execution pays the
   * key unless somebody brings in that coin.
   */
  lemma FirstVoteBlocks(api: Api, w: World, first: string, id: string, amount: Coin, coin: Coin, recipient: string,
                        steps: seq<Step>)
    requires first in w.st.config.trusted && w.st.config.threshold >= 2 && api.addrOk(recipient)
    requires Lower(id) !in w.st.sent && KeyOf(Lower(id), amount, recipient) !in w.st.pending
    requires KeyOf(Lower(id), coin, recipient) == KeyOf(Lower(id), amount, recipient)
    requires w.st.config.minAmount <= coin.amount && Balance(w.balance, coin.denom) < coin.amount
    requires forall s :: s in steps ==> Avoids(s, coin.denom)
    ensures var key := KeyOf(Lower(id), amount, recipient);
      var w' := Run(api, w, [VoteBy(first, id, coin, recipient)] + steps);
      key in w'.st.pending && NotPaidSince(w, w', key)
  {
    var v := VoteBy(first, id, coin, recipient);
    var key := KeyOf(Lower(id), amount, recipient);
    var w1 := Next(api, w, v);
    assert Tally(w.st, key, first, coin, recipient) == Ok(Transaction(coin, recipient, [first]));
    assert w1.st.pending == w.st.pending[key := Transaction(coin, recipient, [first])];
    assert w1.balance == w.balance && w1.payments == w.payments;
    assert ([v] + steps)[1..] == steps;
    UnfundedForEver(api, w1, steps, key, coin);
  }

  /** A vote short of the threshold only joins the entry, whatever coin it asks for. */
  lemma OneMoreVote(api: Api, w: World, a: string, id: string, amount: Coin, recipient: string)
    requires KeyOf(Lower(id), amount, recipient) in w.st.pending && Lower(id) !in w.st.sent
    requires var tx := w.st.pending[KeyOf(Lower(id), amount, recipient)];
      a !in tx.providers && |tx.providers| + 1 < w.st.config.threshold
    requires a in w.st.config.trusted && api.addrOk(recipient) && w.st.config.minAmount <= amount.amount
    ensures var key := KeyOf(Lower(id), amount, recipient);
      var tx := w.st.pending[key];
      var w' := Next(api, w, VoteBy(a, id, amount, recipient));
      && w'.st == w.st.(pending := w.st.pending[key := tx.(providers := tx.providers + [a])])
      && w'.payments == w.payments && w'.balance == w.balance
  {
  }

  /** The completing vote sends the stored coin to the stored recipient if the contract holds it, and is refused if not. */
  lemma CompletingVote(api: Api, w: World, a: string, id: string, amount: Coin, recipient: string)
    requires KeyOf(Lower(id), amount, recipient) in w.st.pending && Lower(id) !in w.st.sent
    requires var tx := w.st.pending[KeyOf(Lower(id), amount, recipient)];
      a !in tx.providers && |tx.providers| + 1 == w.st.config.threshold
    requires a in w.st.config.trusted && api.addrOk(recipient)
    requires w.st.config.minAmount <= amount.amount <= w.st.config.maxAmount
    ensures var key := KeyOf(Lower(id), amount, recipient);
      var tx := w.st.pending[key];
      Next(api, w, VoteBy(a, id, amount, recipient)).payments
        == if Balance(w.balance, tx.amount.denom) >= tx.amount.amount
           then w.payments + [Payment(key, Lower(id), tx.(providers := tx.providers + [a]), true, w.st.config)]
           else w.payments
  {
    assert CreditAll(w.balance, []) == w.balance;
  }

  /**
   * What the missing votes do to an entry short of its threshold: they send the stored coin to the
   * stored recipient if the contract holds it, and pay nothing otherwise.
   */
  lemma {:induction false} MissingVotesPay(api: Api, w: World, voters: seq<string>, id: string, amount: Coin, recipient: string)
    requires KeyOf(Lower(id), amount, recipient) in w.st.pending && Lower(id) !in w.st.sent
    requires var tx := w.st.pending[KeyOf(Lower(id), amount, recipient)];
      NoDup(tx.providers + voters) && voters != [] && |tx.providers + voters| == w.st.config.threshold
    requires forall a :: a in voters ==> a in w.st.config.trusted
    requires api.addrOk(recipient) && w.st.config.minAmount <= amount.amount <= w.st.config.maxAmount
    ensures var key := KeyOf(Lower(id), amount, recipient);
      var tx := w.st.pending[key];
      Run(api, w, VotesBy(voters, id, amount, recipient)).payments
        == if Balance(w.balance, tx.amount.denom) >= tx.amount.amount
           then w.payments + [Payment(key, Lower(id), tx.(providers := tx.providers + voters), true, w.st.config)]
           else w.payments
    decreases |voters|
  {
    var key := KeyOf(Lower(id), amount, recipient);
    var tx := w.st.pending[key];
    var steps := VotesBy(voters, id, amount, recipient);
    var a, rest := voters[0], voters[1..];
    NoDupHead(tx.providers, voters);
    assert steps[1..] == VotesBy(rest, id, amount, recipient);
    if rest == [] {
      assert voters == [a];
      CompletingVote(api, w, a, id, amount, recipient);
    } else {
      OneMoreVote(api, w, a, id, amount, recipient);
      assert (tx.providers + [a]) + rest == tx.providers + voters;
      MissingVotesPay(api, Next(api, w, steps[0]), rest, id, amount, recipient);
    }
  }

  /** So the missing votes get the coin they ask for paid exactly if it is the stored one and the contract holds it. */
  lemma QuorumEnoughIff(api: Api, w: World, voters: seq<string>, id: string, amount: Coin, recipient: string)
    requires KeyOf(Lower(id), amount, recipient) in w.st.pending && Lower(id) !in w.st.sent
    requires var tx := w.st.pending[KeyOf(Lower(id), amount, recipient)];
      NoDup(tx.providers + voters) && voters != [] && |tx.providers + voters| == w.st.config.threshold
    requires forall a :: a in voters ==> a in w.st.config.trusted
    requires api.addrOk(recipient) && w.st.config.minAmount <= amount.amount <= w.st.config.maxAmount
    ensures var w' := Run(api, w, VotesBy(voters, id, amount, recipient));
      (exists i :: |w.payments| <= i < |w'.payments| && w'.payments[i].tx.amount == amount)
      <==> (w.st.pending[KeyOf(Lower(id), amount, recipient)].amount == amount
            && Balance(w.balance, amount.denom) >= amount.amount)
  {
    MissingVotesPay(api, w, voters, id, amount, recipient);
    var w', n := Run(api, w, VotesBy(voters, id, amount, recipient)), |w.payments|;
    assert |w'.payments| > n ==> w'.payments[n].tx.amount == w.st.pending[KeyOf(Lower(id), amount, recipient)].amount;
  }

  lemma LastVotePays(api: Api, w: World, done: seq<string>, a: string, id: string, amount: Coin, recipient: string)
    requires a in w.st.config.trusted && a !in done && |done| + 1 == w.st.config.threshold
    requires api.addrOk(recipient) && Lower(id) !in w.st.sent
    requires w.st.config.minAmount <= amount.amount <= w.st.config.maxAmount
    requires Balance(w.balance, amount.denom) >= amount.amount
    requires Gathered(w.st, KeyOf(Lower(id), amount, recipient), Transaction(amount, recipient, done))
    ensures var key := KeyOf(Lower(id), amount, recipient);
      Next(api, w, VoteBy(a, id, amount, recipient)).payments
        == w.payments + [Payment(key, Lower(id), Transaction(amount, recipient, done + [a]), true, w.st.config)]
  {
    var key := KeyOf(Lower(id), amount, recipient);
    assert done == [] ==> done + [a] == [a];
    assert Tally(w.st, key, a, amount, recipient) == Ok(Transaction(amount, recipient, done + [a]));
    assert CreditAll(w.balance, []) == w.balance;
  }

  function SplitRun(names: seq<string>, t: nat, id: string, amount: Coin, r1: string, r2: string): seq<Step>
    requires 1 <= t <= |names|
  {
    VotesBy(names[..t], id, amount, r1) + VotesBy(names[|names| - t..], id, amount, r2)
      + [ExecuteBy(names[0], amount, KeyOf(Lower(id), amount, r1)), ExecuteBy(names[0], amount, KeyOf(Lower(id), amount, r2))]
  }

  /** One id paid twice, to two recipients, with no more equivocators than the two quorums overlap. */
  ghost predicate PaidTwice(w: World, n: nat, t: nat, id: string, r1: string, r2: string) {
    && |w.everTrusted| == n
    && |Equivocators(w, id)| <= (if 2 * t > n then 2 * t - n else 0)
    && |w.payments| == 2 && w.payments[0].sentId == id == w.payments[1].sentId
    && w.payments[0].tx.recipient == r1 && w.payments[1].tx.recipient == r2
  }

  /**
   * For every number of voters n and every threshold t there is a run, with at most 2t - n
   * equivocators, that pays one id twice. So 2t > n + equivocators is exactly what it takes.
   */
  lemma QuorumBoundIsTight(api: Api, owner: string, names: seq<string>, t: nat,
                           id: string, amount: Coin, r1: string, r2: string)
    requires api.addrOk(owner) && api.addrOk(r1) && api.addrOk(r2) && Bech32Like(api) && r1 != r2
    requires 1 <= t <= |names| && NoDup(names) && forall i :: 0 <= i < |names| ==> api.addrOk(names[i])
    requires '-' !in id && NonDigitStart(amount.denom) && amount.amount > 0
    ensures var start := Started(owner, names, t, 0);
      var w := Run(api, start, SplitRun(names, t, id, amount, r1, r2));
      Fresh(api, start) && PaidTwice(w, |names|, t, Lower(id), r1, r2)
  {
    var start := Started(owner, names, t, 0);
    StartedFresh(api, owner, names, t, 0);
    var k1, k2 := KeyOf(Lower(id), amount, r1), KeyOf(Lower(id), amount, r2);
    var s1, s2 := VotesBy(names[..t], id, amount, r1), VotesBy(names[|names| - t..], id, amount, r2);
    SplitKeys(api, id, amount, r1, r2);
    TwoParked(api, start, names, t, id, amount, r1, r2);
    var w2 := Run(api, start, s1 + s2);
    SplitEnds(api, w2, names, t, id, amount, r1, r2, k1, k2);
    var ends := [ExecuteBy(names[0], amount, k1), ExecuteBy(names[0], amount, k2)];
    RunConcat(api, start, s1 + s2, ends);
    assert SplitRun(names, t, id, amount, r1, r2) == (s1 + s2) + ends;
  }

  /** Executing both parked payloads pays the id twice. */
  lemma SplitEnds(api: Api, w: World, names: seq<string>, t: nat, id: string, amount: Coin, r1: string, r2: string,
                  k1: string, k2: string)
    requires 1 <= t <= |names| && NoDup(names) && amount.amount > 0
    requires w.st.config.threshold == t && w.st.config.trusted == names
    requires '-' !in Lower(id) && k1 != k2 && ExtractId(k1) == Lower(id) == ExtractId(k2)
    requires BothParked(w, names, t, Lower(id), amount, r1, r2, k1, k2)
    ensures var w' := Run(api, w, [ExecuteBy(names[0], amount, k1), ExecuteBy(names[0], amount, k2)]);
      PaidTwice(w', |names|, t, Lower(id), r1, r2)
  {
    var e1, e2 := ExecuteBy(names[0], amount, k1), ExecuteBy(names[0], amount, k2);
    TwoExecuted(api, w, names[0], k1, k2);
    RunTwo(api, w, e1, e2);
    NoDupCard(names);
    OverlapBound(Run(api, w, [e1, e2]), names, t, Lower(id), k1, k2);
  }

  lemma SplitKeys(api: Api, id: string, amount: Coin, r1: string, r2: string)
    requires Bech32Like(api) && api.addrOk(r1) && api.addrOk(r2) && r1 != r2
    requires '-' !in id && NonDigitStart(amount.denom)
    ensures '-' !in Lower(id)
    ensures KeyOf(Lower(id), amount, r1) != KeyOf(Lower(id), amount, r2)
    ensures ExtractId(KeyOf(Lower(id), amount, r1)) == Lower(id) == ExtractId(KeyOf(Lower(id), amount, r2))
  {
    LowerKeepsDash(id);
    LowerIdempotent(id);
    BuildInjective(Lower(id), amount.amount, amount.denom, r1, Lower(id), amount.amount, amount.denom, r2);
    ExtractRoundTrip(Lower(id), amount.amount, amount.denom, r1);
    ExtractRoundTrip(Lower(id), amount.amount, amount.denom, r2);
  }

  /** Two payloads of one id, each with a threshold of votes from its half of the voters, and nothing paid yet. */
  ghost predicate BothParked(w: World, names: seq<string>, t: nat, id: string, amount: Coin,
                             r1: string, r2: string, k1: string, k2: string)
    requires t <= |names|
  {
    var A, B := names[..t], names[|names| - t..];
    && w.payments == [] && w.everTrusted == Elems(names)
    && k1 in w.st.pending && w.st.pending[k1] == Transaction(amount, r1, A)
    && k2 in w.st.pending && w.st.pending[k2] == Transaction(amount, r2, B)
    && (forall v :: v in w.votes ==> v.id == id && ((v.key == k1 && v.voter in A) || (v.key == k2 && v.voter in B)))
  }

  /** After both rounds of votes two payloads of one id are parked side by side. */
  lemma TwoParked(api: Api, start: World, names: seq<string>, t: nat, id: string, amount: Coin, r1: string, r2: string)
    requires 1 <= t <= |names| && NoDup(names) && api.addrOk(r1) && api.addrOk(r2)
    requires KeyOf(Lower(id), amount, r1) != KeyOf(Lower(id), amount, r2) && amount.amount > 0
    requires start.st.config.trusted == names && start.everTrusted == Elems(names)
    requires start.st.config.minAmount == 0 == start.st.config.maxAmount
    requires start.st.pending == map[] && start.st.sent == map[] && start.votes == {} && start.payments == []
    ensures var w := Run(api, start, VotesBy(names[..t], id, amount, r1) + VotesBy(names[|names| - t..], id, amount, r2));
      && w.st.config == start.st.config
      && BothParked(w, names, t, Lower(id), amount, r1, r2, KeyOf(Lower(id), amount, r1), KeyOf(Lower(id), amount, r2))
  {
    var A, B := names[..t], names[|names| - t..];
    var k1, k2 := KeyOf(Lower(id), amount, r1), KeyOf(Lower(id), amount, r2);
    var s1, s2 := VotesBy(A, id, amount, r1), VotesBy(B, id, amount, r2);
    assert names == A + names[t..];
    NoDupFront(A, names[t..]);
    assert NoDup(B);
    NewPile(api, start, A, id, amount, r1);
    var w1 := Run(api, start, s1);
    NewPile(api, w1, B, id, amount, r2);
    RunConcat(api, start, s1, s2);
    TwoPiles(start, w1, Run(api, w1, s2), names, t, Lower(id), amount, r1, r2, k1, k2);
  }

  lemma TwoPiles(start: World, w1: World, w2: World, names: seq<string>, t: nat, id: string, amount: Coin,
                 r1: string, r2: string, k1: string, k2: string)
    requires 1 <= t <= |names| && k1 != k2 && start.votes == {} && start.payments == [] && start.everTrusted == Elems(names)
    requires PiledUp(start, w1, k1, id, Transaction(amount, r1, names[..t]), names[..t])
    requires PiledUp(w1, w2, k2, id, Transaction(amount, r2, names[|names| - t..]), names[|names| - t..])
    ensures w2.st.config == start.st.config && BothParked(w2, names, t, id, amount, r1, r2, k1, k2)
  {
  }

  lemma TwoExecuted(api: Api, w: World, sender: string, k1: string, k2: string)
    requires k1 != k2 && k1 in w.st.pending && k2 in w.st.pending
    requires |w.st.pending[k1].providers| >= w.st.config.threshold
    requires |w.st.pending[k2].providers| >= w.st.config.threshold
    requires w.st.pending[k1].amount.amount > 0 && w.st.pending[k2].amount.amount > 0
    requires forall a :: a in w.st.config.trusted ==> a in w.everTrusted
    ensures var tx1, tx2 := w.st.pending[k1], w.st.pending[k2];
      var w' := Next(api, Next(api, w, ExecuteBy(sender, tx1.amount, k1)), ExecuteBy(sender, tx2.amount, k2));
      && w'.payments == w.payments + [Payment(k1, ExtractId(k1), tx1, false, w.st.config),
                                      Payment(k2, ExtractId(k2), tx2, false, w.st.config)]
      && w'.votes == w.votes && w'.everTrusted == w.everTrusted && w'.st.config == w.st.config
  {
    ExecuteParked(api, w, sender, k1);
    ExecuteParked(api, Next(api, w, ExecuteBy(sender, w.st.pending[k1].amount, k1)), sender, k2);
  }

  /** Only voters in both halves can have equivocated. */
  lemma OverlapBound(w: World, names: seq<string>, t: nat, id: string, k1: string, k2: string)
    requires t <= |names| && NoDup(names)
    requires forall v :: v in w.votes ==>
               v.id == id && ((v.key == k1 && v.voter in names[..t]) || (v.key == k2 && v.voter in names[|names| - t..]))
    ensures |Equivocators(w, id)| <= (if 2 * t > |names| then 2 * t - |names| else 0)
  {
    var A, B := names[..t], names[|names| - t..];
    var both := if 2 * t > |names| then names[|names| - t..t] else [];
    forall x | x in Equivocators(w, id) ensures x in Elems(both) {
      var v, u :| v in w.votes && u in w.votes && v.voter == u.voter == x && (v.key != u.key || v.id != id);
      assert x in A && x in B;
      var i :| 0 <= i < |A| && A[i] == x;
      var j :| 0 <= j < |B| && B[j] == x;
      assert names[i] == x && names[|names| - t + j] == x;
      assert i == |names| - t + j;
      assert both[j] == x;
    }
    NoDupCard(both);
    SubsetCard(Equivocators(w, id), Elems(both));
  }

  // ---------- token identity ----------

  lemma LowerKeepsHex(s: string)
    requires forall i :: 0 <= i < |s| ==> IsHex(s[i])
    ensures forall i :: 0 <= i < |Lower(s)| ==> IsHex(Lower(s)[i])
  {
  }

  /** The same token with its currency code in lower case and a multiplier of its own. */
  function CaseVariant(t: XrplToken, multiplier: string): XrplToken {
    t.(currency := Lower(t.currency), multiplier := multiplier)
  }

  function AddToken(w: World, t: XrplToken): Step {
    Call(w.st.config.owner, [], true, AddXrplTokens([t]))
  }

  /**
   * Tokens are told apart by the text of the currency code: next to a token written in upper case
   * the owner can add the same code in lower case, with a multiplier of its own.
   */
  lemma CaseVariantTokenAccepted(api: Api, w: World, t: XrplToken, multiplier: string)
    requires NoDup(TokenKeys(w.st.config.tokens)) && t in w.st.config.tokens && TokenError(api, t).None?
    requires TokenError(api, t.(multiplier := multiplier)).None?
    requires (t.issuer, Lower(t.currency)) !in TokenKeys(w.st.config.tokens)
    requires |w.st.config.tokens| < MAX_XRPL_TOKENS && w.st.config.version < MAX_U64
    requires forall a :: a in w.st.config.trusted ==> a in w.everTrusted
    ensures var c, u := w.st.config, CaseVariant(t, multiplier);
      Apply(api, w, AddToken(w, u))
        == Ok(w.(st := w.st.(config := c.(tokens := c.tokens + [u], version := c.version + 1))))
  {
    var u, existing := CaseVariant(t, multiplier), w.st.config.tokens;
    LowerKeepsHex(t.currency);
    assert TokenError(api, u).None?;
    assert [u][..0] == [] && existing + [] == existing;
    assert AddTokensError(api, existing, [u]).None?;
    assert w.deposits + [] == w.deposits;
    assert w.everTrusted + (set a | a in w.st.config.trusted) == w.everTrusted;
  }
}
