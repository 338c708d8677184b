/**
 * The threshold payment contract as values: its configuration, its two transaction maps
 * and, per message, the new state or the error that leaves the state as it was.
 */
module ContractModel {
  import opened Prelude
  import opened EvidenceId

  datatype Coin = Coin(denom: string, amount: nat)

  datatype Transaction = Transaction(amount: Coin, recipient: string, providers: seq<string>)

  datatype XrplToken = XrplToken(currency: string, issuer: string, activationDate: nat, multiplier: string)

  datatype Config = Config(
    owner: string, trusted: seq<string>, threshold: nat,
    minAmount: nat, maxAmount: nat, tokens: seq<XrplToken>, version: nat)

  /** `pending` is keyed by evidence id, `sent` by normalised transaction id. */
  datatype State = State(config: Config, pending: map<string, Transaction>, sent: map<string, Transaction>)

  /** What the contract asks of the chain: its own address, address checks and text decoding. */
  datatype Api = Api(
    self: string,
    addrOk: string -> bool,
    issuerOk: string -> bool,
    decimal: string -> Option<nat>)  // in units of 10^-18

  datatype Error =
    | InvalidAddress | Unauthorized | InvalidThreshold | DuplicatedTrustedAddress
    | DuplicatedXrplToken | InvalidXrplCurrency | InvalidXrplIssuer | InvalidMultiplier | TokenLimit
    | TransferAlreadySent | EvidenceAlreadyProvided | TransactionNotFound | TransactionNotConfirmed
    | LowAmount | FundsMismatch | NoFunds | MultipleDenoms | VersionOverflow | BankRejected

  /** The bank message a payment step hands to the chain, with the keys it touched. */
  datatype Payout = Payout(key: string, sentId: string, tx: Transaction)

  datatype Outcome = Outcome(st: State, payout: Option<Payout>)

  datatype InstantiateMsg = InstantiateMsg(
    owner: string, trusted: seq<string>, threshold: nat,
    minAmount: nat, maxAmount: nat, tokens: seq<XrplToken>)

  datatype Msg =
    | ThresholdBankSend(id: string, amount: Coin, recipient: string)
    | ExecutePending(key: string)
    | UpdateMinAmount(minAmount: nat)
    | UpdateMaxAmount(maxAmount: nat)
    | UpdateTrustedAddresses(trusted: seq<string>)
    | AddXrplTokens(tokens: seq<XrplToken>)
    | UpdateOwner(newOwner: string)

  const MAX_XRPL_TOKENS := 200
  const CURRENCY_HEX_LENGTH := 40
  const MIN_MULTIPLIER := 100_000_000_000_000_000       // 0.1
  const MAX_MULTIPLIER := 10_000_000_000_000_000_000    // 10.0
  const MAX_U64 := 0xFFFF_FFFF_FFFF_FFFF

  function KeyOf(id: string, amount: Coin, recipient: string): string {
    Build(id, amount.amount, amount.denom, recipient)
  }

  // ---------- validation of lists ----------

  /** The first fault found when the list is read from the front. */
  function TrustedError(api: Api, addrs: seq<string>): Option<Error> {
    if addrs == [] then None
    else
      var n := |addrs| - 1;
      var before := TrustedError(api, addrs[..n]);
      if before.Some? then before
      else if !api.addrOk(addrs[n]) then Some(InvalidAddress)
      else if addrs[n] in addrs[..n] then Some(DuplicatedTrustedAddress)
      else None
  }

  predicate IsHex(c: char) {
    '0' <= c <= '9' || 'a' <= c <= 'f' || 'A' <= c <= 'F'
  }

  function TokenError(api: Api, t: XrplToken): Option<Error> {
    if |t.currency| != CURRENCY_HEX_LENGTH || (exists i :: 0 <= i < |t.currency| && !IsHex(t.currency[i]))
    then Some(InvalidXrplCurrency)
    else if !api.issuerOk(t.issuer) then Some(InvalidXrplIssuer)
    else
      var multiplier := api.decimal(t.multiplier);
      if multiplier.None? || multiplier.value < MIN_MULTIPLIER || multiplier.value > MAX_MULTIPLIER
      then Some(InvalidMultiplier) else None
  }

  function TokenKey(t: XrplToken): (string, string) {
    (t.issuer, t.currency)
  }

  function TokenKeys(ts: seq<XrplToken>): seq<(string, string)> {
    seq(|ts|, i requires 0 <= i < |ts| => TokenKey(ts[i]))
  }

  function FirstInvalidToken(api: Api, ts: seq<XrplToken>): Option<Error> {
    if ts == [] then None
    else
      var before := FirstInvalidToken(api, ts[..|ts| - 1]);
      if before.Some? then before else TokenError(api, ts[|ts| - 1])
  }

  /** The first fault met while appending `added` one token at a time to `existing`. */
  function AddTokensError(api: Api, existing: seq<XrplToken>, added: seq<XrplToken>): Option<Error> {
    if added == [] then None
    else
      var n := |added| - 1;
      var before := AddTokensError(api, existing, added[..n]);
      if before.Some? then before
      else if TokenError(api, added[n]).Some? then TokenError(api, added[n])
      else if TokenKey(added[n]) in TokenKeys(existing + added[..n]) then Some(DuplicatedXrplToken)
      else None
  }

  lemma {:induction false} TrustedErrorMeaning(api: Api, addrs: seq<string>)
    ensures TrustedError(api, addrs).None?
       <==> NoDup(addrs) && forall i :: 0 <= i < |addrs| ==> api.addrOk(addrs[i])
  {
    if addrs != [] {
      var n := |addrs| - 1;
      TrustedErrorMeaning(api, addrs[..n]);
      assert forall i :: 0 <= i < n ==> addrs[..n][i] == addrs[i];
      if addrs[n] in addrs[..n] {
        var i :| 0 <= i < n && addrs[..n][i] == addrs[n];
        assert addrs[i] == addrs[n];
      }
    }
  }

  lemma {:induction false} FirstInvalidTokenMeaning(api: Api, ts: seq<XrplToken>)
    ensures FirstInvalidToken(api, ts).None?
       <==> forall i :: 0 <= i < |ts| ==> TokenError(api, ts[i]).None?
  {
    if ts != [] {
      FirstInvalidTokenMeaning(api, ts[..|ts| - 1]);
    }
  }

  lemma {:induction false} AddTokensErrorMeaning(api: Api, existing: seq<XrplToken>, added: seq<XrplToken>)
    requires NoDup(TokenKeys(existing))
    ensures AddTokensError(api, existing, added).None?
       <==> NoDup(TokenKeys(existing + added))
            && forall i :: 0 <= i < |added| ==> TokenError(api, added[i]).None?
  {
    if added == [] {
      assert existing + added == existing;
    } else {
      var n := |added| - 1;
      AddTokensErrorMeaning(api, existing, added[..n]);
      var keys := TokenKeys(existing + added);
      var shorter := TokenKeys(existing + added[..n]);
      assert |shorter| == |keys| - 1;
      assert forall i :: 0 <= i < |shorter| ==> shorter[i] == keys[i];
      assert keys[|keys| - 1] == TokenKey(added[n]);
      if TokenKey(added[n]) in shorter {
        var i :| 0 <= i < |shorter| && shorter[i] == TokenKey(added[n]);
        assert keys[i] == keys[|keys| - 1];
      }
    }
  }

  // ---------- messages ----------

  function Instantiate(api: Api, msg: InstantiateMsg): Result<State, Error> {
    if !api.addrOk(msg.owner) then Err(InvalidAddress)
    else if msg.threshold == 0 || msg.threshold > |msg.trusted| then Err(InvalidThreshold)
    else if TrustedError(api, msg.trusted).Some? then Err(TrustedError(api, msg.trusted).value)
    else if FirstInvalidToken(api, msg.tokens).Some? then Err(FirstInvalidToken(api, msg.tokens).value)
    else if exists i, j :: 0 <= i < j < |msg.tokens| && TokenKey(msg.tokens[i]) == TokenKey(msg.tokens[j])
    then Err(DuplicatedXrplToken)
    else Ok(State(
      Config(msg.owner, msg.trusted, msg.threshold, msg.minAmount, msg.maxAmount, msg.tokens, 1),
      map[], map[]))
  }

  /** The entry after one more vote under `key`. */
  function Tally(s: State, key: string, sender: string, amount: Coin, recipient: string): Result<Transaction, Error> {
    if key !in s.pending then Ok(Transaction(amount, recipient, [sender]))
    else if sender in s.pending[key].providers then Err(EvidenceAlreadyProvided)
    else Ok(s.pending[key].(providers := s.pending[key].providers + [sender]))
  }

  /** Pays `tx`: the id becomes sent and the pending entry goes. */
  function Pay(s: State, key: string, sentId: string, tx: Transaction): Outcome {
    Outcome(s.(sent := s.sent[sentId := tx], pending := s.pending - {key}), Some(Payout(key, sentId, tx)))
  }

  function Vote(api: Api, s: State, sender: string, id: string, amount: Coin, recipient: string)
    : Result<Outcome, Error>
  {
    var lid := Lower(id);
    var key := KeyOf(lid, amount, recipient);
    if !api.addrOk(recipient) then Err(InvalidAddress)
    else if sender !in s.config.trusted then Err(Unauthorized)
    else if s.config.minAmount > amount.amount then Err(LowAmount)
    else if lid in s.sent then Err(TransferAlreadySent)
    else
      match Tally(s, key, sender, amount, recipient)
      case Err(e) => Err(e)
      case Ok(tx) =>
        if |tx.providers| == s.config.threshold && s.config.maxAmount >= amount.amount
        then Ok(Pay(s, key, lid, tx))
        else Ok(Outcome(s.(pending := s.pending[key := tx]), None))
  }

  /** Exactly one coin of a positive amount must come with the call. */
  function OneCoin(funds: seq<Coin>): Result<Coin, Error> {
    if |funds| == 0 then Err(NoFunds)
    else if |funds| > 1 then Err(MultipleDenoms)
    else if funds[0].amount == 0 then Err(NoFunds)
    else Ok(funds[0])
  }

  function ExecutePendingTx(s: State, funds: seq<Coin>, key: string): Result<Outcome, Error> {
    if key !in s.pending then Err(TransactionNotFound)
    else
      var tx := s.pending[key];
      if |tx.providers| < s.config.threshold then Err(TransactionNotConfirmed)
      else
        match OneCoin(funds)
        case Err(e) => Err(e)
        case Ok(coin) => if coin != tx.amount then Err(FundsMismatch) else Ok(Pay(s, key, ExtractId(key), tx))
  }

  /** Stores `cfg` with the next version number; the 64-bit counter traps instead of wrapping. */
  function Bump(s: State, cfg: Config): Result<Outcome, Error> {
    if s.config.version >= MAX_U64 then Err(VersionOverflow)
    else Ok(Outcome(s.(config := cfg.(version := s.config.version + 1)), None))
  }

  function OwnerUpdate(api: Api, s: State, sender: string, msg: Msg): Result<Outcome, Error>
    requires !msg.ThresholdBankSend? && !msg.ExecutePending?
  {
    if sender != s.config.owner then Err(Unauthorized)
    else
      match msg
      case UpdateMinAmount(n) => Bump(s, s.config.(minAmount := n))
      case UpdateMaxAmount(n) => Bump(s, s.config.(maxAmount := n))
      case UpdateTrustedAddresses(addrs) =>
        if TrustedError(api, addrs).Some? then Err(TrustedError(api, addrs).value)
        else Bump(s, s.config.(trusted := addrs))
      case AddXrplTokens(added) =>
        if AddTokensError(api, s.config.tokens, added).Some?
        then Err(AddTokensError(api, s.config.tokens, added).value)
        else if |s.config.tokens + added| > MAX_XRPL_TOKENS then Err(TokenLimit)
        else Bump(s, s.config.(tokens := s.config.tokens + added))
      case UpdateOwner(newOwner) =>
        if !api.addrOk(newOwner) then Err(InvalidAddress) else Bump(s, s.config.(owner := newOwner))
  }

  function Execute(api: Api, s: State, sender: string, funds: seq<Coin>, msg: Msg): Result<Outcome, Error> {
    match msg
    case ThresholdBankSend(id, amount, recipient) => Vote(api, s, sender, id, amount, recipient)
    case ExecutePending(key) => ExecutePendingTx(s, funds, key)
    case _ => OwnerUpdate(api, s, sender, msg)
  }

  /** Upgrade of an already configured contract, optionally replacing the owner. */
  function Migrate(api: Api, s: State, newOwner: Option<string>): Result<Outcome, Error> {
    match newOwner
    case None => Ok(Outcome(s, None))
    case Some(owner) => if !api.addrOk(owner) then Err(InvalidAddress) else Bump(s, s.config.(owner := owner))
  }
}
