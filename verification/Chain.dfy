/**
 * Runs of the contract on its chain. A world is the contract's storage and bank balance
 * together with the history of the run; a failing step leaves the whole world unchanged.
 * The history is only written, so it never influences a step.
 */
module Chain {
  import opened Prelude
  import opened EvidenceId
  import opened ContractModel

  /** An accepted vote: the normalised payload, its key, the config in force and its place in the entry. */
  datatype VoteRecord = VoteRecord(
    voter: string, id: string, amount: Coin, recipient: string, key: string, cfg: Config, place: nat)

  /** A bank send, by the automatic or the manual path, with the config in force. */
  datatype Payment = Payment(key: string, sentId: string, tx: Transaction, auto: bool, cfg: Config)

  datatype World = World(
    st: State,
    balance: map<string, nat>,
    votes: set<VoteRecord>,
    payments: seq<Payment>,
    deposits: seq<Coin>,
    everTrusted: set<string>)

  /** `bankOk` is the bank module's own verdict on a send, beyond the balance check. */
  datatype Step =
    | Call(sender: string, funds: seq<Coin>, bankOk: bool, msg: Msg)
    | Upgrade(newOwner: Option<string>)
    | Deposit(coin: Coin)

  function Balance(b: map<string, nat>, denom: string): nat {
    if denom in b then b[denom] else 0
  }

  function Credit(b: map<string, nat>, coin: Coin): map<string, nat> {
    b[coin.denom := Balance(b, coin.denom) + coin.amount]
  }

  function CreditAll(b: map<string, nat>, coins: seq<Coin>): map<string, nat> {
    if coins == [] then b else Credit(CreditAll(b, coins[..|coins| - 1]), coins[|coins| - 1])
  }

  /** The balance after the bank message, if the bank accepts it. A send to the contract itself moves nothing. */
  function Settle(api: Api, bankOk: bool, b: map<string, nat>, payout: Option<Payout>): Option<map<string, nat>> {
    match payout
    case None => Some(b)
    case Some(p) =>
      var coin := p.tx.amount;
      if !bankOk || Balance(b, coin.denom) < coin.amount then None
      else if p.tx.recipient == api.self then Some(b)
      else Some(b[coin.denom := Balance(b, coin.denom) - coin.amount])
  }

  function NewVote(s: State, sender: string, id: string, amount: Coin, recipient: string): VoteRecord {
    var key := KeyOf(Lower(id), amount, recipient);
    VoteRecord(sender, Lower(id), amount, recipient, key, s.config,
               if key in s.pending then |s.pending[key].providers| + 1 else 1)
  }

  function Record(w: World, c: Step, o: Outcome, balance: map<string, nat>): World
    requires c.Call?
  {
    World(
      o.st,
      balance,
      match c.msg
      case ThresholdBankSend(id, amount, recipient) => w.votes + {NewVote(w.st, c.sender, id, amount, recipient)}
      case _ => w.votes,
      match o.payout
      case None => w.payments
      case Some(p) => w.payments + [Payment(p.key, p.sentId, p.tx, c.msg.ThresholdBankSend?, w.st.config)],
      if c.msg.ExecutePending? then w.deposits else w.deposits + c.funds,
      w.everTrusted + (set a | a in o.st.config.trusted))
  }

  function Apply(api: Api, w: World, step: Step): Result<World, Error> {
    match step
    case Deposit(coin) => Ok(w.(balance := Credit(w.balance, coin), deposits := w.deposits + [coin]))
    case Upgrade(newOwner) =>
      (match Migrate(api, w.st, newOwner)
       case Err(e) => Err(e)
       case Ok(o) => Ok(w.(st := o.st)))
    case Call(sender, funds, bankOk, msg) =>
      (match Execute(api, w.st, sender, funds, msg)
       case Err(e) => Err(e)
       case Ok(o) =>
         (match Settle(api, bankOk, CreditAll(w.balance, funds), o.payout)
          case None => Err(BankRejected)
          case Some(balance) => Ok(Record(w, step, o, balance))))
  }

  function Next(api: Api, w: World, step: Step): World {
    var r := Apply(api, w, step);
    if r.Ok? then r.value else w
  }

  function Run(api: Api, w: World, steps: seq<Step>): World
    decreases |steps|
  {
    if steps == [] then w else Run(api, Next(api, w, steps[0]), steps[1..])
  }

  /** The world right after instantiation, with whatever the account already holds. */
  function Start(s: State, balance: map<string, nat>): World {
    World(s, balance, {}, [], [], set a | a in s.config.trusted)
  }

  ghost predicate Fresh(api: Api, w: World) {
    exists msg, balance :: IsFresh(api, w, msg, balance)
  }

  ghost predicate IsFresh(api: Api, w: World, msg: InstantiateMsg, balance: map<string, nat>) {
    Instantiate(api, msg).Ok? && w == Start(Instantiate(api, msg).value, balance)
  }

  lemma {:induction false} RunConcat(api: Api, w: World, a: seq<Step>, b: seq<Step>)
    ensures Run(api, w, a + b) == Run(api, Run(api, w, a), b)
    decreases |a|
  {
    if a == [] {
      assert a + b == b;
    } else {
      assert (a + b)[1..] == a[1..] + b;
      RunConcat(api, Next(api, w, a[0]), a[1..], b);
    }
  }
}
