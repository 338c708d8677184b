/**
 * One key, several readings: votes for different payloads can meet under one evidence id, where
 * the first fixes what is stored, each is checked for itself, and the last one's id is recorded.
 * What this does to the guarantees, and for exactly which payloads.
 */
module Readings {
  import opened Prelude
  import opened EvidenceId
  import opened ContractModel
  import opened Chain
  import opened Safety
  import opened Ledger
  import opened Limits

  datatype Payload = Payload(id: string, coin: Coin, recipient: string)

  function Key(p: Payload): string {
    KeyOf(Lower(p.id), p.coin, p.recipient)
  }

  function VoteFor(voter: string, p: Payload): Step {
    VoteBy(voter, p.id, p.coin, p.recipient)
  }

  lemma KeyLower(p: Payload)
    ensures Key(p) == KeyOf(p.id, p.coin, p.recipient)
  {
    BuildLower(p.id, p.coin.amount, p.coin.denom, p.recipient);
  }

  // ---------- paid twice ----------

  /** A sole voter's vote within the limits is paid at once, under the id of the vote. */
  lemma SoleVotePays(api: Api, w: World, voter: string, a: Payload)
    requires w.st.config.trusted == [voter] && w.st.config.threshold == 1
    requires w.st.config.minAmount == 0 && a.coin.amount <= w.st.config.maxAmount
    requires api.addrOk(a.recipient) && Lower(a.id) !in w.st.sent && w.st.pending == map[]
    requires Balance(w.balance, a.coin.denom) >= a.coin.amount
    ensures var w' := Next(api, w, VoteFor(voter, a));
      var tx := Transaction(a.coin, a.recipient, [voter]);
      && w'.st == w.st.(sent := w.st.sent[Lower(a.id) := tx])
      && w'.payments == w.payments + [Payment(Key(a), Lower(a.id), tx, true, w.st.config)]
      && (forall d :: Balance(w'.balance, d) >= Balance(w.balance, d) - In(a.coin, d))
  {
    var tx := Transaction(a.coin, a.recipient, [voter]);
    assert w.st.pending - {Key(a)} == map[];
    assert Vote(api, w.st, voter, a.id, a.coin, a.recipient) == Ok(Pay(w.st, Key(a), Lower(a.id), tx));
  }

  ghost predicate PaysTwice(w: World, key: string) {
    exists i, j :: 0 <= i < j < |w.payments| && w.payments[i].key == key == w.payments[j].key
  }

  /** Some contract has a run that pays this evidence id twice. */
  ghost predicate CanBePaidTwice(api: Api, key: string) {
    exists start, steps :: Fresh(api, start) && PaysTwice(Run(api, start, steps), key)
  }

  /** A key that can be read with two ids is paid once under each. */
  lemma TwoReadingsPaidTwice(api: Api, voter: string, a: Payload, b: Payload)
    requires api.addrOk(voter) && api.addrOk(a.recipient) && api.addrOk(b.recipient)
    requires Lower(a.id) != Lower(b.id) && Key(a) == Key(b)
    ensures CanBePaidTwice(api, Key(a))
  {
    var cap := if a.coin.amount > b.coin.amount then a.coin.amount else b.coin.amount;
    var start := Started(voter, [voter], 1, cap);
    StartedFresh(api, voter, [voter], 1, cap);
    var w1 := Next(api, start, Deposit(a.coin));
    var w2 := Next(api, w1, Deposit(b.coin));
    SoleVotePays(api, w2, voter, a);
    SoleVotePays(api, Next(api, w2, VoteFor(voter, a)), voter, b);
    RunTwo(api, start, Deposit(a.coin), Deposit(b.coin));
    RunTwo(api, w2, VoteFor(voter, a), VoteFor(voter, b));
    RunConcat(api, start, [Deposit(a.coin), Deposit(b.coin)], [VoteFor(voter, a), VoteFor(voter, b)]);
    var w := Run(api, start, [Deposit(a.coin), Deposit(b.coin)] + [VoteFor(voter, a), VoteFor(voter, b)]);
    assert w.payments[0].key == Key(a) == w.payments[1].key;
  }

  lemma DashedPaidTwice(api: Api, a: Payload)
    requires api.addrOk(a.recipient) && '-' in a.id && a.coin.amount > 0
    ensures CanBePaidTwice(api, Key(a))
  {
    var r := a.recipient;
    DashedIdPaidTwice(api, r, r, a.id, a.coin, r);
    var round := [VoteFor(r, a), ExecuteBy(r, a.coin, Key(a))];
    assert PaysTwice(Run(api, Started(r, [r], 1, 0), round + round), Key(a));
  }

  /** A payload whose text is ambiguous, and not for a dash in the id alone, shares its key with one of another id. */
  lemma OtherId(a: Payload) returns (b: Payload)
    requires !Unambiguous(a.id, a.coin) && !('-' in a.id && a.coin.amount > 0)
    ensures Key(b) == Key(a) && b.recipient == a.recipient && Lower(b.id) != Lower(a.id)
  {
    var id, n, denom;
    if !NoDigitAfterDash(a.coin.denom) {
      id, n, denom := DashedReading(a.id, a.coin.amount, a.coin.denom, a.recipient);
    } else {
      id, n, denom := ShorterReading(a.id, a.coin.amount, a.coin.denom, a.recipient);
    }
    b := Payload(id, Coin(denom, n), a.recipient);
    KeyLower(a);
    KeyLower(b);
  }

  /**
   * The evidence id of a payload can be paid twice exactly if its text is ambiguous: a dash of the
   * denom is followed by a digit, or the id has a dash, which for amount zero must have a digit behind it.
   */
  lemma PaidTwiceIff(api: Api, a: Payload)
    requires Bech32Like(api) && api.addrOk(a.recipient)
    ensures CanBePaidTwice(api, Key(a)) <==> !Unambiguous(a.id, a.coin)
  {
    if !Unambiguous(a.id, a.coin) {
      if '-' in a.id && a.coin.amount > 0 {
        DashedPaidTwice(api, a);
      } else {
        var b := OtherId(a);
        TwoReadingsPaidTwice(api, a.recipient, a, b);
      }
    } else if CanBePaidTwice(api, Key(a)) {
      var start, steps :| Fresh(api, start) && PaysTwice(Run(api, start, steps), Key(a));
      UnambiguousOneId(api, a.id, a.coin, a.recipient);
      KeyLower(a);
      OncePerEvidenceId(api, start, steps, Key(a), Lower(a.id));
      assert false;
    }
  }

  // ---------- two voters ----------

  /** A contract with two voters, both needed. */
  ghost predicate TwoVoters(w: World, first: string, second: string) {
    w.st.config.trusted == [first, second] && first != second && w.st.config.threshold == 2
  }

  function Opened(a: Payload, first: string): Transaction {
    Transaction(a.coin, a.recipient, [first])
  }

  function Completed(a: Payload, first: string, second: string): Transaction {
    Transaction(a.coin, a.recipient, [first, second])
  }

  lemma FirstOpens(api: Api, w: World, first: string, second: string, a: Payload)
    requires TwoVoters(w, first, second) && w.st.pending == map[] && Lower(a.id) !in w.st.sent
    requires api.addrOk(a.recipient) && w.st.config.minAmount <= a.coin.amount
    ensures Apply(api, w, VoteFor(first, a)).Ok?
    ensures var w' := Next(api, w, VoteFor(first, a));
      && w'.st == w.st.(pending := map[Key(a) := Opened(a, first)])
      && w'.payments == w.payments && w'.balance == w.balance
      && w'.votes == w.votes + {NewVote(w.st, first, a.id, a.coin, a.recipient)}
  {
    assert Tally(w.st, Key(a), first, a.coin, a.recipient) == Ok(Opened(a, first));
  }

  /** The second vote is checked with its own coin; what is paid is the first one's. */
  lemma SecondPays(api: Api, w: World, first: string, second: string, a: Payload, b: Payload)
    requires TwoVoters(w, first, second) && w.st.pending == map[Key(a) := Opened(a, first)] && Key(a) == Key(b)
    requires Lower(b.id) !in w.st.sent && api.addrOk(b.recipient)
    requires w.st.config.minAmount <= b.coin.amount <= w.st.config.maxAmount
    requires Balance(w.balance, a.coin.denom) >= a.coin.amount
    ensures var w' := Next(api, w, VoteFor(second, b));
      var tx, v := Completed(a, first, second), NewVote(w.st, second, b.id, b.coin, b.recipient);
      && w'.st == w.st.(pending := map[], sent := w.st.sent[Lower(b.id) := tx])
      && w'.payments == w.payments + [Payment(Key(b), Lower(b.id), tx, true, w.st.config)]
      && v in w'.votes && v.place == 2
  {
    var tx := Completed(a, first, second);
    assert [first] + [second] == [first, second];
    assert Tally(w.st, Key(b), second, b.coin, b.recipient) == Ok(tx);
    assert Vote(api, w.st, second, b.id, b.coin, b.recipient) == Ok(Pay(w.st, Key(b), Lower(b.id), tx));
    assert w.st.pending - {Key(b)} == map[];
    assert CreditAll(w.balance, []) == w.balance;
  }

  lemma SecondParks(api: Api, w: World, first: string, second: string, a: Payload, b: Payload)
    requires TwoVoters(w, first, second) && w.st.pending == map[Key(a) := Opened(a, first)] && Key(a) == Key(b)
    requires Lower(b.id) !in w.st.sent && api.addrOk(b.recipient)
    requires w.st.config.minAmount <= b.coin.amount && w.st.config.maxAmount < b.coin.amount
    ensures var w' := Next(api, w, VoteFor(second, b));
      && w'.st == w.st.(pending := map[Key(b) := Completed(a, first, second)])
      && w'.votes == w.votes + {NewVote(w.st, second, b.id, b.coin, b.recipient)}
  {
    assert [first] + [second] == [first, second];
    assert Tally(w.st, Key(b), second, b.coin, b.recipient) == Ok(Completed(a, first, second));
    assert w.st.pending[Key(b) := Completed(a, first, second)] == map[Key(b) := Completed(a, first, second)];
  }

  /** Valid addresses for an owner and two voters. */
  ghost predicate Cast(api: Api, owner: string, first: string, second: string) {
    api.addrOk(owner) && api.addrOk(first) && api.addrOk(second) && first != second
  }

  function TwoVoterStart(owner: string, first: string, second: string, maxAmount: nat): World {
    Started(owner, [first, second], 2, maxAmount)
  }

  /** The second vote completes the first one's entry, and the first one's coin is sent. */
  function MeetingRun(first: string, second: string, a: Payload, b: Payload): seq<Step> {
    [Deposit(a.coin), VoteFor(first, a)] + [VoteFor(second, b)]
  }

  lemma VotesMeet(api: Api, owner: string, first: string, second: string, a: Payload, b: Payload, maxAmount: nat)
    requires Cast(api, owner, first, second) && api.addrOk(a.recipient) && api.addrOk(b.recipient)
    requires Key(a) == Key(b) && b.coin.amount <= maxAmount
    ensures var start := TwoVoterStart(owner, first, second, maxAmount);
      var w := Run(api, start, MeetingRun(first, second, a, b));
      var tx := Completed(a, first, second);
      && Fresh(api, start) && TwoVoters(w, first, second)
      && w.st == start.st.(sent := map[Lower(b.id) := tx])
      && w.payments == [Payment(Key(b), Lower(b.id), tx, true, start.st.config)]
      && exists v :: Completes(w, w.payments[0], v) && v.amount == b.coin
  {
    var start := TwoVoterStart(owner, first, second, maxAmount);
    StartedFresh(api, owner, [first, second], 2, maxAmount);
    var w1 := Next(api, start, Deposit(a.coin));
    assert Balance(w1.balance, a.coin.denom) == a.coin.amount;
    FirstOpens(api, w1, first, second, a);
    var w2 := Next(api, w1, VoteFor(first, a));
    SecondPays(api, w2, first, second, a, b);
    var w := Next(api, w2, VoteFor(second, b));
    RunTwo(api, start, Deposit(a.coin), VoteFor(first, a));
    RunConcat(api, start, [Deposit(a.coin), VoteFor(first, a)], [VoteFor(second, b)]);
    assert [VoteFor(second, b)][1..] == [];
    var v := NewVote(w2.st, second, b.id, b.coin, b.recipient);
    assert Completes(w, w.payments[0], v);
  }

  // ---------- the first vote decides what is paid ----------

  /** Votes that differ only in the case of the denom meet under one key, and the first one is paid. */
  lemma DenomCaseFollowsFirstVote(api: Api, owner: string, first: string, second: string, a: Payload, denom: string)
    requires Cast(api, owner, first, second) && api.addrOk(a.recipient) && Lower(denom) == Lower(a.coin.denom)
    ensures var b := a.(coin := Coin(denom, a.coin.amount));
      var start := TwoVoterStart(owner, first, second, a.coin.amount);
      var w := Run(api, start, MeetingRun(first, second, a, b));
      Fresh(api, start) && |w.payments| == 1 && w.payments[0].tx == Completed(a, first, second)
  {
    BuildShape(Lower(a.id), a.coin.amount, a.coin.denom, a.recipient);
    BuildShape(Lower(a.id), a.coin.amount, denom, a.recipient);
    VotesMeet(api, owner, first, second, a, a.(coin := Coin(denom, a.coin.amount)), a.coin.amount);
  }

  lemma LargerPayload(api: Api, a: Payload) returns (b: Payload)
    requires LargerReading(api, Key(a), a.coin.amount)
    ensures api.addrOk(b.recipient) && Key(b) == Key(a) && b.coin.amount > a.coin.amount
  {
    var id, coin, recipient :| api.addrOk(recipient) && KeyOf(id, coin, recipient) == Key(a) && coin.amount > a.coin.amount;
    b := Payload(id, coin, recipient);
    KeyLower(b);
  }

  /** An automatic send completed by a vote for this coin exceeds the cap in force. */
  ghost predicate SentAboveCap(w: World, key: string, coin: Coin) {
    exists p, v :: p in w.payments && Completes(w, p, v) && p.key == key && v.amount == coin
                   && p.cfg.maxAmount < p.tx.amount.amount
  }

  ghost predicate CanSendAboveCap(api: Api, a: Payload) {
    exists start, steps :: Fresh(api, start) && SentAboveCap(Run(api, start, steps), Key(a), a.coin)
  }

  /** For plain keys the coins with a larger reading are those of a denom with a digit in front. */
  lemma LargerByText(api: Api, a: Payload)
    requires api.addrOk(a.recipient)
    ensures Bech32Like(api) && PlainKey(api, Key(a)) ==>
              (LargerReading(api, Key(a), a.coin.amount) <==> a.coin.amount > 0 && !NonDigitStart(a.coin.denom))
  {
    if Bech32Like(api) && PlainKey(api, Key(a)) {
      LargerReadingIff(api, Lower(a.id), a.coin, a.recipient);
    }
  }

  /** A completing vote for a coin can let through more than the cap exactly if its key has a larger reading. */
  lemma SentAboveCapIff(api: Api, owner: string, first: string, second: string, a: Payload)
    requires Cast(api, owner, first, second) && api.addrOk(a.recipient)
    ensures CanSendAboveCap(api, a) <==> LargerReading(api, Key(a), a.coin.amount)
    ensures Bech32Like(api) && PlainKey(api, Key(a)) ==>
              (CanSendAboveCap(api, a) <==> a.coin.amount > 0 && !NonDigitStart(a.coin.denom))
  {
    if LargerReading(api, Key(a), a.coin.amount) {
      var b := LargerPayload(api, a);
      VotesMeet(api, owner, first, second, b, a, a.coin.amount);
      var start := TwoVoterStart(owner, first, second, a.coin.amount);
      var w := Run(api, start, MeetingRun(first, second, b, a));
      assert w.payments[0] in w.payments;
      assert SentAboveCap(w, Key(a), a.coin);
    }
    if CanSendAboveCap(api, a) {
      var start, steps :| Fresh(api, start) && SentAboveCap(Run(api, start, steps), Key(a), a.coin);
      var w := Run(api, start, steps);
      var p, v :| p in w.payments && Completes(w, p, v) && p.key == Key(a) && v.amount == a.coin
                  && p.cfg.maxAmount < p.tx.amount.amount;
      AutoPaymentWithinLimits(api, start, steps, p, v);
    }
    LargerByText(api, a);
  }

  /** An automatic send of this coin lies below the minimum in force. */
  ghost predicate SentBelowMin(w: World, key: string, coin: Coin) {
    exists p :: p in w.payments && p.auto && p.key == key && p.tx.amount == coin && coin.amount < p.cfg.minAmount
  }

  ghost predicate CanSendBelowMin(api: Api, a: Payload) {
    exists start, steps :: Fresh(api, start) && SentBelowMin(Run(api, start, steps), Key(a), a.coin)
  }

  /** The minimum is raised between the votes: the second one clears it, the stored coin does not. */
  lemma MinRaisedBetween(api: Api, owner: string, first: string, second: string, a: Payload, b: Payload)
    requires Cast(api, owner, first, second) && api.addrOk(a.recipient) && api.addrOk(b.recipient)
    requires Key(a) == Key(b) && a.coin.amount < b.coin.amount
    ensures CanSendBelowMin(api, a)
  {
    var n := b.coin.amount;
    var start := TwoVoterStart(owner, first, second, n);
    StartedFresh(api, owner, [first, second], 2, n);
    var raise := Call(owner, [], true, UpdateMinAmount(n));
    var w1 := Next(api, start, Deposit(a.coin));
    assert Balance(w1.balance, a.coin.denom) == a.coin.amount;
    FirstOpens(api, w1, first, second, a);
    var w2 := Next(api, w1, VoteFor(first, a));
    var w3 := Next(api, w2, raise);
    assert w3.st == w2.st.(config := w2.st.config.(minAmount := n, version := 2)) && w3.balance == w2.balance;
    SecondPays(api, w3, first, second, a, b);
    RunTwo(api, start, Deposit(a.coin), VoteFor(first, a));
    RunTwo(api, w2, raise, VoteFor(second, b));
    RunConcat(api, start, [Deposit(a.coin), VoteFor(first, a)], [raise, VoteFor(second, b)]);
    var w := Run(api, start, [Deposit(a.coin), VoteFor(first, a)] + [raise, VoteFor(second, b)]);
    assert w.payments[|w.payments| - 1] in w.payments;
    assert SentBelowMin(w, Key(a), a.coin);
  }

  /** A coin can be sent below the minimum exactly if its key has a larger reading. */
  lemma SentBelowMinIff(api: Api, owner: string, first: string, second: string, a: Payload)
    requires Cast(api, owner, first, second) && api.addrOk(a.recipient)
    ensures CanSendBelowMin(api, a) <==> LargerReading(api, Key(a), a.coin.amount)
    ensures Bech32Like(api) && PlainKey(api, Key(a)) ==>
              (CanSendBelowMin(api, a) <==> a.coin.amount > 0 && !NonDigitStart(a.coin.denom))
  {
    if LargerReading(api, Key(a), a.coin.amount) {
      var b := LargerPayload(api, a);
      MinRaisedBetween(api, owner, first, second, a, b);
    }
    if CanSendBelowMin(api, a) {
      var start, steps :| Fresh(api, start) && SentBelowMin(Run(api, start, steps), Key(a), a.coin);
      var w := Run(api, start, steps);
      var p :| p in w.payments && p.auto && p.key == Key(a) && p.tx.amount == a.coin && a.coin.amount < p.cfg.minAmount;
      var v := AutoPaymentCompleted(api, start, steps, p);
      AutoPaymentWithinLimits(api, start, steps, p, v);
    }
    LargerByText(api, a);
  }

  /** The coin is pending with a threshold of votes, though it was not above the cap when it got them. */
  ghost predicate ParkedWithinCap(w: World, key: string, coin: Coin) {
    && key in w.st.pending && w.st.pending[key].amount == coin
    && |w.st.pending[key].providers| >= w.st.config.threshold
    && !CompletedAboveCap(w, key)
  }

  ghost predicate CanParkWithinCap(api: Api, a: Payload) {
    exists start, steps :: Fresh(api, start) && ParkedWithinCap(Run(api, start, steps), Key(a), a.coin)
  }

  lemma SmallerParked(api: Api, owner: string, first: string, second: string, a: Payload, b: Payload)
    requires Cast(api, owner, first, second) && api.addrOk(a.recipient) && api.addrOk(b.recipient)
    requires Key(a) == Key(b) && a.coin.amount < b.coin.amount
    ensures CanParkWithinCap(api, a)
  {
    var n := a.coin.amount;
    var start := TwoVoterStart(owner, first, second, n);
    StartedFresh(api, owner, [first, second], 2, n);
    FirstOpens(api, start, first, second, a);
    SecondParks(api, Next(api, start, VoteFor(first, a)), first, second, a, b);
    RunTwo(api, start, VoteFor(first, a), VoteFor(second, b));
    var w := Run(api, start, [VoteFor(first, a), VoteFor(second, b)]);
    assert forall v :: v in w.votes ==> v.cfg.maxAmount == n;
    assert ParkedWithinCap(w, Key(a), a.coin);
  }

  /** A coin can be parked without being above the cap exactly if its key has a larger reading. */
  lemma ParkedWithinCapIff(api: Api, owner: string, first: string, second: string, a: Payload)
    requires Cast(api, owner, first, second) && api.addrOk(a.recipient)
    ensures CanParkWithinCap(api, a) <==> LargerReading(api, Key(a), a.coin.amount)
    ensures Bech32Like(api) && PlainKey(api, Key(a)) ==>
              (CanParkWithinCap(api, a) <==> a.coin.amount > 0 && !NonDigitStart(a.coin.denom))
  {
    if LargerReading(api, Key(a), a.coin.amount) {
      var b := LargerPayload(api, a);
      SmallerParked(api, owner, first, second, a, b);
    }
    if CanParkWithinCap(api, a) {
      var start, steps :| Fresh(api, start) && ParkedWithinCap(Run(api, start, steps), Key(a), a.coin);
      if !LargerReading(api, Key(a), a.coin.amount) {
        ParkedAboveCap(api, start, steps, Key(a));
        assert false;
      }
    }
    LargerByText(api, a);
  }

  // ---------- repeated votes ----------

  /** A vote for the payload is accepted, and later in the same run accepted again from the same sender. */
  ghost predicate AcceptedAgain(api: Api, start: World, before: seq<Step>, voter: string, a: Payload, after: seq<Step>) {
    && Fresh(api, start)
    && Apply(api, Run(api, start, before), VoteFor(voter, a)).Ok?
    && Apply(api, Run(api, start, before + [VoteFor(voter, a)] + after), VoteFor(voter, a)).Ok?
  }

  ghost predicate CanBeRepeated(api: Api, a: Payload) {
    exists start, before, voter, after :: AcceptedAgain(api, start, before, voter, a, after)
  }

  /** Its entry is completed and paid under another id, so the payload can be voted for anew. */
  lemma OtherIdReopens(api: Api, owner: string, first: string, second: string, a: Payload, b: Payload)
    requires Cast(api, owner, first, second) && api.addrOk(a.recipient) && api.addrOk(b.recipient)
    requires Key(a) == Key(b) && Lower(a.id) != Lower(b.id)
    ensures CanBeRepeated(api, a)
  {
    var start := TwoVoterStart(owner, first, second, b.coin.amount);
    VotesMeet(api, owner, first, second, a, b, b.coin.amount);
    var w1 := Next(api, start, Deposit(a.coin));
    var w := Run(api, start, MeetingRun(first, second, a, b));
    FirstOpens(api, w1, first, second, a);
    FirstOpens(api, w, first, second, a);
    assert [Deposit(a.coin)][1..] == [];
    assert [Deposit(a.coin)] + [VoteFor(first, a)] + [VoteFor(second, b)] == MeetingRun(first, second, a, b);
    assert AcceptedAgain(api, start, [Deposit(a.coin)], first, a, [VoteFor(second, b)]);
  }

  /** With a dash in the id, executing the entry blocks another id, so the vote can be cast anew. */
  lemma DashedRepeats(api: Api, a: Payload)
    requires api.addrOk(a.recipient) && '-' in a.id && a.coin.amount > 0
    ensures CanBeRepeated(api, a)
  {
    var voter := a.recipient;
    var v, e := VoteFor(voter, a), ExecuteBy(voter, a.coin, Key(a));
    var start := Started(voter, [voter], 1, 0);
    StartedFresh(api, voter, [voter], 1, 0);
    LowerIdempotent(a.id);
    LowerKeepsDash(a.id);
    ExtractRoundTrip(Lower(a.id), a.coin.amount, a.coin.denom, a.recipient);
    VoteThenExecute(api, start, voter, a.id, a.coin, a.recipient);
    RunTwo(api, start, v, e);
    assert [] + [v] + [e] == [v, e];
    assert Run(api, start, []) == start;
    assert AcceptedAgain(api, start, [], voter, a, [e]);
  }

  /** An accepted vote can be accepted again exactly if the text of its payload is ambiguous. */
  lemma RepeatedIff(api: Api, owner: string, first: string, second: string, a: Payload)
    requires Cast(api, owner, first, second) && Bech32Like(api) && api.addrOk(a.recipient)
    ensures CanBeRepeated(api, a) <==> !Unambiguous(a.id, a.coin)
  {
    if !Unambiguous(a.id, a.coin) {
      if '-' in a.id && a.coin.amount > 0 {
        DashedRepeats(api, a);
      } else {
        var b := OtherId(a);
        OtherIdReopens(api, owner, first, second, a, b);
      }
    } else if CanBeRepeated(api, a) {
      var start, before, voter, after :| AcceptedAgain(api, start, before, voter, a, after);
      UnambiguousOneId(api, a.id, a.coin, a.recipient);
      KeyLower(a);
      RepeatRejected(api, start, before, VoteFor(voter, a), after, VoteFor(voter, a));
      assert false;
    }
  }

  // ---------- other coins of one key ----------

  /** Under one id and recipient, a key is shared by the coins whose text is the same up to letter case. */
  lemma SameTextSameKey(id: string, a: Coin, b: Coin, recipient: string)
    ensures KeyOf(id, a, recipient) == KeyOf(id, b, recipient)
       <==> Decimal(a.amount) + Lower(a.denom) == Decimal(b.amount) + Lower(b.denom)
  {
    BuildShape(id, a.amount, a.denom, recipient);
    BuildShape(id, b.amount, b.denom, recipient);
    var x, y := Decimal(a.amount) + Lower(a.denom), Decimal(b.amount) + Lower(b.denom);
    JoinMiddle(Lower(id), x, Lower(recipient));
    JoinMiddle(Lower(id), y, Lower(recipient));
  }

  ghost predicate HasOtherCoin(id: string, a: Coin, recipient: string) {
    exists coin :: coin != a && coin.amount > 0 && KeyOf(id, coin, recipient) == KeyOf(id, a, recipient)
  }

  /**
   * Another coin of a positive amount shares the key, so that a first vote for it can block the
   * transfer, exactly if the amount has two digits or is positive with a denom that has a letter
   * or a digit in front.
   */
  lemma OtherCoinIff(id: string, a: Coin, recipient: string)
    ensures HasOtherCoin(id, a, recipient)
       <==> a.amount >= 10 || (a.amount > 0 && (HasLetter(a.denom) || !NonDigitStart(a.denom)))
  {
    if a.amount >= 10 || (a.amount > 0 && (HasLetter(a.denom) || !NonDigitStart(a.denom))) {
      OtherCoin(id, a, recipient);
    }
    if coin :| coin != a && coin.amount > 0 && KeyOf(id, coin, recipient) == KeyOf(id, a, recipient) {
      SameTextSameKey(id, coin, a, recipient);
      NeedsMore(coin, a);
    }
  }

  lemma OtherCoin(id: string, a: Coin, recipient: string)
    requires a.amount >= 10 || (a.amount > 0 && (HasLetter(a.denom) || !NonDigitStart(a.denom)))
    ensures HasOtherCoin(id, a, recipient)
  {
    if a.amount >= 10 {
      var denom := [Digit(a.amount % 10)] + a.denom;
      assert denom[1..] == a.denom;
      ShiftedDigit(id, a.amount / 10, denom, recipient);
      assert KeyOf(id, Coin(denom, a.amount / 10), recipient) == KeyOf(id, a, recipient);
    } else if !NonDigitStart(a.denom) {
      ShiftedDigit(id, a.amount, a.denom, recipient);
      var coin := Coin(a.denom[1..], 10 * a.amount + DigitValue(a.denom[0]));
      assert KeyOf(id, coin, recipient) == KeyOf(id, a, recipient);
    } else {
      OtherCaseIff(a.denom);
      var denom :| denom != a.denom && Lower(denom) == Lower(a.denom);
      SameTextSameKey(id, Coin(denom, a.amount), a, recipient);
    }
  }

  lemma NeedsMore(coin: Coin, a: Coin)
    requires coin != a && coin.amount > 0
    requires Decimal(coin.amount) + Lower(coin.denom) == Decimal(a.amount) + Lower(a.denom)
    ensures a.amount >= 10 || (a.amount > 0 && (HasLetter(a.denom) || !NonDigitStart(a.denom)))
  {
    if a.amount == 0 {
      ZeroReadings(coin.amount, Lower(coin.denom), Lower(a.denom));
      assert false;
    }
    if a.amount < 10 && NonDigitStart(a.denom) {
      LowerKeepsNonDigitStart(a.denom);
      AmountReadings(coin.amount, Lower(coin.denom), a.amount, Lower(a.denom));
      OneDigit(coin.amount, Lower(coin.denom), a.amount, Lower(a.denom));
      OtherCaseIff(a.denom);
      assert Lower(coin.denom) == Lower(a.denom);
    }
  }

  lemma OneDigit(x: nat, d: string, y: nat, e: string)
    requires Decimal(x) + d == Decimal(y) + e && x <= y < 10
    ensures x == y
  {
    assert (Decimal(x) + d)[0] == Digit(x) && (Decimal(y) + e)[0] == Digit(y);
  }
}
