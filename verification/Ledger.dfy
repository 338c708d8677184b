/** Conservation: the contract's bank balance is accounted for by deposits and payments. */
module Ledger {
  import opened ContractModel
  import opened Chain
  import opened Invariants
  import opened Safety

  function In(coin: Coin, denom: string): nat {
    if coin.denom == denom then coin.amount else 0
  }

  function Total(coins: seq<Coin>, denom: string): nat {
    if coins == [] then 0 else Total(coins[..|coins| - 1], denom) + In(coins[|coins| - 1], denom)
  }

  /** What one payment takes from the contract: automatic sends to others only. */
  function Outflow(api: Api, p: Payment, denom: string): nat {
    if p.auto && p.tx.recipient != api.self then In(p.tx.amount, denom) else 0
  }

  /** What one payment leaves with the contract: a manual execution that pays the contract itself. */
  function Inflow(api: Api, p: Payment, denom: string): nat {
    if !p.auto && p.tx.recipient == api.self then In(p.tx.amount, denom) else 0
  }

  function TotalOut(api: Api, ps: seq<Payment>, denom: string): nat {
    if ps == [] then 0 else TotalOut(api, ps[..|ps| - 1], denom) + Outflow(api, ps[|ps| - 1], denom)
  }

  function TotalIn(api: Api, ps: seq<Payment>, denom: string): nat {
    if ps == [] then 0 else TotalIn(api, ps[..|ps| - 1], denom) + Inflow(api, ps[|ps| - 1], denom)
  }

  lemma {:induction false} CreditAllBalance(b: map<string, nat>, coins: seq<Coin>, denom: string)
    ensures Balance(CreditAll(b, coins), denom) == Balance(b, denom) + Total(coins, denom)
  {
    if coins != [] {
      CreditAllBalance(b, coins[..|coins| - 1], denom);
    }
  }

  lemma {:induction false} TotalConcat(a: seq<Coin>, b: seq<Coin>, denom: string)
    ensures Total(a + b, denom) == Total(a, denom) + Total(b, denom)
    decreases |b|
  {
    if b == [] {
      assert a + b == a;
    } else {
      var n := |b| - 1;
      assert (a + b)[..|a + b| - 1] == a + b[..n];
      TotalConcat(a, b[..n], denom);
    }
  }

  /** Opening balance implied by the current one and the history. */
  function Opening(api: Api, w: World, denom: string): int {
    Balance(w.balance, denom) + TotalOut(api, w.payments, denom)
      - Total(w.deposits, denom) - TotalIn(api, w.payments, denom)
  }

  lemma PaymentsTotal(api: Api, ps: seq<Payment>, p: Payment, denom: string)
    ensures TotalOut(api, ps + [p], denom) == TotalOut(api, ps, denom) + Outflow(api, p, denom)
    ensures TotalIn(api, ps + [p], denom) == TotalIn(api, ps, denom) + Inflow(api, p, denom)
  {
    assert (ps + [p])[..|ps|] == ps;
  }

  /** A manual execution brings in exactly the coin it sends out. */
  lemma ManualPaymentNeutral(api: Api, w: World, c: Step, denom: string)
    requires c.Call? && c.msg.ExecutePending? && Apply(api, w, c).Ok?
    ensures var w' := Next(api, w, c);
      && |w'.payments| == |w.payments| + 1
      && var tx := w'.payments[|w.payments|].tx;
         && c.funds == [tx.amount]
         && Balance(w'.balance, denom)
              == Balance(w.balance, denom) + (if tx.recipient == api.self then In(tx.amount, denom) else 0)
  {
    CreditAllBalance(w.balance, c.funds, denom);
    assert c.funds[..0] == [];
  }

  /** A call that pays out nothing, or pays automatically. */
  lemma CallEffect(api: Api, w: World, c: Step, denom: string)
    requires c.Call? && !c.msg.ExecutePending? && Apply(api, w, c).Ok?
    ensures var w' := Next(api, w, c);
      && w'.deposits == w.deposits + c.funds
      && (w'.payments == w.payments || exists p :: w'.payments == w.payments + [p] && p.auto)
      && Balance(w'.balance, denom) == Balance(CreditAll(w.balance, c.funds), denom)
           - (if w'.payments == w.payments then 0 else Outflow(api, w'.payments[|w'.payments| - 1], denom))
  {
    var w' := Next(api, w, c);
    if w'.payments != w.payments {
      assert w'.payments == w.payments + [w'.payments[|w.payments|]];
    }
  }

  lemma CallOpening(api: Api, w: World, c: Step, denom: string)
    requires c.Call? && !c.msg.ExecutePending? && Apply(api, w, c).Ok?
    ensures Opening(api, Next(api, w, c), denom) == Opening(api, w, denom)
  {
    var w' := Next(api, w, c);
    CallEffect(api, w, c, denom);
    CreditAllBalance(w.balance, c.funds, denom);
    TotalConcat(w.deposits, c.funds, denom);
    if w'.payments != w.payments {
      var p :| w'.payments == w.payments + [p] && p.auto;
      PaymentsTotal(api, w.payments, p, denom);
    }
  }

  lemma StepOpening(api: Api, w: World, step: Step, denom: string)
    ensures Opening(api, Next(api, w, step), denom) == Opening(api, w, denom)
  {
    var w' := Next(api, w, step);
    if Apply(api, w, step).Ok? {
      if step.Deposit? {
        TotalConcat(w.deposits, [step.coin], denom);
        assert [step.coin][..0] == [];
      } else if step.Call? && step.msg.ExecutePending? {
        ManualPaymentNeutral(api, w, step, denom);
        PaymentsTotal(api, w.payments, w'.payments[|w.payments|], denom);
      } else if step.Call? {
        CallOpening(api, w, step, denom);
      }
    }
  }

  lemma {:induction false} RunOpening(api: Api, w: World, steps: seq<Step>, denom: string)
    ensures Opening(api, Run(api, w, steps), denom) == Opening(api, w, denom)
    decreases |steps|
  {
    if steps != [] {
      StepOpening(api, w, steps[0], denom);
      RunOpening(api, Next(api, w, steps[0]), steps[1..], denom);
    }
  }

  /** Balance = opening balance + deposits - automatic sends (+ manual sends addressed to the contract itself). */
  lemma Conservation(api: Api, start: World, steps: seq<Step>, denom: string)
    requires Fresh(api, start)
    ensures var w := Run(api, start, steps);
      Balance(w.balance, denom) == Balance(start.balance, denom) + Total(w.deposits, denom)
                                   - TotalOut(api, w.payments, denom) + TotalIn(api, w.payments, denom)
  {
    RunOpening(api, start, steps, denom);
  }

  /** The vote that triggered the payment. */
  ghost predicate Completes(w: World, p: Payment, v: VoteRecord) {
    p.auto && v in w.votes && IsTrigger(v, p)
  }

  /**
   * An automatic send is at most the maximum in force at its step unless its key has a reading larger
   * than the coin of the completing vote, and at least the minimum unless it has one larger than the
   * coin sent. `Readings.SentAboveCapIff` and `Readings.SentBelowMinIff` show that both exceptions are real.
   */
  lemma AutoPaymentWithinLimits(api: Api, start: World, steps: seq<Step>, p: Payment, v: VoteRecord)
    requires Fresh(api, start) && p in Run(api, start, steps).payments && Completes(Run(api, start, steps), p, v)
    ensures p.cfg.maxAmount < p.tx.amount.amount ==> LargerReading(api, p.key, v.amount.amount)
    ensures p.tx.amount.amount < p.cfg.minAmount ==> LargerReading(api, p.key, p.tx.amount.amount)
  {
    var w := Run(api, start, steps);
    ReachableInv(api, start, steps);
    assert PaymentOk(w, p) && VoteOk(api, w, v);
    FirstVote(api, w, p.key, p.tx);
    var u :| u in w.votes && u.key == p.key && u.amount == p.tx.amount && u.recipient == p.tx.recipient;
    assert VoteOk(api, w, u);
  }

  /** Every automatic send has a completing vote. */
  lemma AutoPaymentCompleted(api: Api, start: World, steps: seq<Step>, p: Payment) returns (v: VoteRecord)
    requires Fresh(api, start) && p in Run(api, start, steps).payments && p.auto
    ensures Completes(Run(api, start, steps), p, v)
  {
    ReachableInv(api, start, steps);
    assert PaymentOk(Run(api, start, steps), p);
    v :| v in Run(api, start, steps).votes && IsTrigger(v, p);
  }
}
