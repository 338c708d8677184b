/**
 * The contract as it runs: storage that the entry points read, change and save, with the
 * checks done by loops over hash sets and provider lists. Every entry point is proved
 * against the value-level step of ContractModel, on its error paths as well.
 */
module Migrator {
  import opened Prelude
  import opened EvidenceId
  import opened ContractModel

  method CheckTrusted(api: Api, addrs: seq<string>) returns (e: Option<Error>)
    ensures e == TrustedError(api, addrs)
  {
    var seen: set<string> := {};
    for i := 0 to |addrs|
      invariant seen == Elems(addrs[..i])
      invariant TrustedError(api, addrs[..i]).None?
    {
      PrefixFault(api, addrs, i);
      assert addrs[..i + 1][..i] == addrs[..i];
      if !api.addrOk(addrs[i]) {
        return Some(InvalidAddress);
      }
      if addrs[i] in seen {
        return Some(DuplicatedTrustedAddress);
      }
      seen := seen + {addrs[i]};
    }
    assert addrs[..|addrs|] == addrs;
    return None;
  }

  /** A fault in a prefix is the fault of the whole list. */
  lemma {:induction false} PrefixFault(api: Api, addrs: seq<string>, i: nat)
    requires i < |addrs|
    ensures TrustedError(api, addrs[..i + 1]).Some? ==> TrustedError(api, addrs) == TrustedError(api, addrs[..i + 1])
    decreases |addrs|
  {
    if i + 1 == |addrs| {
      assert addrs[..i + 1] == addrs;
    } else {
      var shorter := addrs[..|addrs| - 1];
      PrefixFault(api, shorter, i);
      assert shorter[..i + 1] == addrs[..i + 1];
    }
  }

  method CheckTokens(api: Api, ts: seq<XrplToken>) returns (e: Option<Error>)
    ensures e == FirstInvalidToken(api, ts)
  {
    for i := 0 to |ts|
      invariant FirstInvalidToken(api, ts[..i]).None?
    {
      PrefixInvalidToken(api, ts, i);
      assert ts[..i + 1][..i] == ts[..i];
      if TokenError(api, ts[i]).Some? {
        return TokenError(api, ts[i]);
      }
    }
    assert ts[..|ts|] == ts;
    return None;
  }

  lemma {:induction false} PrefixInvalidToken(api: Api, ts: seq<XrplToken>, i: nat)
    requires i < |ts|
    ensures FirstInvalidToken(api, ts[..i + 1]).Some?
        ==> FirstInvalidToken(api, ts) == FirstInvalidToken(api, ts[..i + 1])
    decreases |ts|
  {
    if i + 1 == |ts| {
      assert ts[..i + 1] == ts;
    } else {
      var shorter := ts[..|ts| - 1];
      PrefixInvalidToken(api, shorter, i);
      assert shorter[..i + 1] == ts[..i + 1];
    }
  }

  lemma {:induction false} PrefixAddFault(api: Api, existing: seq<XrplToken>, added: seq<XrplToken>, i: nat)
    requires i < |added|
    ensures AddTokensError(api, existing, added[..i + 1]).Some?
        ==> AddTokensError(api, existing, added) == AddTokensError(api, existing, added[..i + 1])
    decreases |added|
  {
    if i + 1 == |added| {
      assert added[..i + 1] == added;
    } else {
      var shorter := added[..|added| - 1];
      PrefixAddFault(api, existing, shorter, i);
      assert shorter[..i + 1] == added[..i + 1];
    }
  }

  method HasDuplicateToken(ts: seq<XrplToken>) returns (dup: bool)
    ensures dup <==> exists i, j :: 0 <= i < j < |ts| && TokenKey(ts[i]) == TokenKey(ts[j])
  {
    var seen: set<(string, string)> := {};
    for i := 0 to |ts|
      invariant forall k :: k in seen <==> exists j :: 0 <= j < i && TokenKey(ts[j]) == k
      invariant forall j, k :: 0 <= j < k < i ==> TokenKey(ts[j]) != TokenKey(ts[k])
    {
      if TokenKey(ts[i]) in seen {
        return true;
      }
      seen := seen + {TokenKey(ts[i])};
    }
    return false;
  }

  method HasProvided(providers: seq<string>, sender: string) returns (found: bool)
    ensures found <==> sender in providers
  {
    for i := 0 to |providers|
      invariant sender !in providers[..i]
    {
      if providers[i] == sender {
        return true;
      }
    }
    return false;
  }

  class Contract {
    const api: Api
    var config: Config
    var pending: map<string, Transaction>
    var sent: map<string, Transaction>

    function St(): State
      reads this
    {
      State(config, pending, sent)
    }

    constructor (api: Api, config: Config)
      ensures this.api == api && St() == State(config, map[], map[])
    {
      this.api := api;
      this.config := config;
      this.pending := map[];
      this.sent := map[];
    }

    static method Instantiated(api: Api, msg: InstantiateMsg) returns (r: Result<Contract, Error>)
      ensures match Instantiate(api, msg)
              case Ok(s) => r.Ok? && fresh(r.value) && r.value.api == api && r.value.St() == s
              case Err(e) => r == Err(e)
    {
      if !api.addrOk(msg.owner) {
        return Err(InvalidAddress);
      }
      if msg.threshold == 0 || msg.threshold > |msg.trusted| {
        return Err(InvalidThreshold);
      }
      var e := CheckTrusted(api, msg.trusted);
      if e.Some? {
        return Err(e.value);
      }
      e := CheckTokens(api, msg.tokens);
      if e.Some? {
        return Err(e.value);
      }
      var dup := HasDuplicateToken(msg.tokens);
      if dup {
        return Err(DuplicatedXrplToken);
      }
      var c := new Contract(api, Config(msg.owner, msg.trusted, msg.threshold,
                                        msg.minAmount, msg.maxAmount, msg.tokens, 1));
      return Ok(c);
    }

    method ThresholdBankSend(sender: string, id: string, amount: Coin, recipient: string)
      returns (r: Result<Option<Payout>, Error>)
      modifies this
      ensures match Vote(api, old(St()), sender, id, amount, recipient)
              case Ok(o) => r == Ok(o.payout) && St() == o.st
              case Err(e) => r == Err(e) && St() == old(St())
    {
      var lid := Lower(id);
      if !api.addrOk(recipient) {
        return Err(InvalidAddress);
      }
      if sender !in config.trusted {
        return Err(Unauthorized);
      }
      if config.minAmount > amount.amount {
        return Err(LowAmount);
      }
      if lid in sent {
        return Err(TransferAlreadySent);
      }
      var key := KeyOf(lid, amount, recipient);
      var tx: Transaction;
      if key !in pending {
        tx := Transaction(amount, recipient, [sender]);
      } else {
        tx := pending[key];
        var provided := HasProvided(tx.providers, sender);
        if provided {
          return Err(EvidenceAlreadyProvided);
        }
        tx := tx.(providers := tx.providers + [sender]);
      }
      if |tx.providers| == config.threshold && config.maxAmount >= amount.amount {
        var payout := SendBankTransaction(tx, lid, key);
        return Ok(Some(payout));
      }
      pending := pending[key := tx];
      return Ok(None);
    }

    method ExecutePending(funds: seq<Coin>, key: string) returns (r: Result<Option<Payout>, Error>)
      modifies this
      ensures match ExecutePendingTx(old(St()), funds, key)
              case Ok(o) => r == Ok(o.payout) && St() == o.st
              case Err(e) => r == Err(e) && St() == old(St())
    {
      if key !in pending {
        return Err(TransactionNotFound);
      }
      var tx := pending[key];
      if |tx.providers| < config.threshold {
        return Err(TransactionNotConfirmed);
      }
      match OneCoin(funds)
      case Err(e) => return Err(e);
      case Ok(coin) =>
        if coin != tx.amount {
          return Err(FundsMismatch);
        }
        var payout := SendBankTransaction(tx, ExtractId(key), key);
        return Ok(Some(payout));
    }

    method SendBankTransaction(tx: Transaction, id: string, key: string) returns (payout: Payout)
      modifies this`sent, this`pending
      ensures Outcome(St(), Some(payout)) == Pay(old(St()), key, id, tx)
    {
      sent := sent[id := tx];
      pending := pending - {key};
      payout := Payout(key, id, tx);
    }

    method SaveConfig(cfg: Config) returns (r: Result<Option<Payout>, Error>)
      modifies this`config
      ensures match Bump(old(St()), cfg)
              case Ok(o) => r == Ok(None) && St() == o.st
              case Err(e) => r == Err(e) && St() == old(St())
    {
      if config.version >= MAX_U64 {
        return Err(VersionOverflow);
      }
      config := cfg.(version := config.version + 1);
      return Ok(None);
    }

    method UpdateTrusted(sender: string, addrs: seq<string>) returns (r: Result<Option<Payout>, Error>)
      modifies this`config
      ensures match OwnerUpdate(api, old(St()), sender, UpdateTrustedAddresses(addrs))
              case Ok(o) => r == Ok(None) && St() == o.st
              case Err(e) => r == Err(e) && St() == old(St())
    {
      if sender != config.owner {
        return Err(Unauthorized);
      }
      var e := CheckTrusted(api, addrs);
      if e.Some? {
        return Err(e.value);
      }
      r := SaveConfig(config.(trusted := addrs));
    }

    method AddTokens(sender: string, added: seq<XrplToken>) returns (r: Result<Option<Payout>, Error>)
      modifies this`config
      ensures match OwnerUpdate(api, old(St()), sender, AddXrplTokens(added))
              case Ok(o) => r == Ok(None) && St() == o.st
              case Err(e) => r == Err(e) && St() == old(St())
    {
      if sender != config.owner {
        return Err(Unauthorized);
      }
      var tokens := config.tokens;
      var seen := set k | k in TokenKeys(tokens);
      for i := 0 to |added|
        invariant config == old(config) && tokens == config.tokens + added[..i]
        invariant forall k :: k in seen <==> k in TokenKeys(tokens)
        invariant AddTokensError(api, config.tokens, added[..i]).None?
      {
        PrefixAddFault(api, config.tokens, added, i);
        assert added[..i + 1][..i] == added[..i];
        if TokenError(api, added[i]).Some? {
          return Err(TokenError(api, added[i]).value);
        }
        if TokenKey(added[i]) in seen {
          return Err(DuplicatedXrplToken);
        }
        assert TokenKeys(tokens + [added[i]]) == TokenKeys(tokens) + [TokenKey(added[i])];
        seen := seen + {TokenKey(added[i])};
        tokens := tokens + [added[i]];
      }
      assert added[..|added|] == added && tokens == config.tokens + added;
      if |tokens| > MAX_XRPL_TOKENS {
        return Err(TokenLimit);
      }
      r := SaveConfig(config.(tokens := tokens));
    }

    /** The dispatch on the message kind. */
    method Run(sender: string, funds: seq<Coin>, msg: Msg) returns (r: Result<Option<Payout>, Error>)
      modifies this
      ensures match Execute(api, old(St()), sender, funds, msg)
              case Ok(o) => r == Ok(o.payout) && St() == o.st
              case Err(e) => r == Err(e) && St() == old(St())
    {
      match msg
      case ThresholdBankSend(id, amount, recipient) => r := this.ThresholdBankSend(sender, id, amount, recipient);
      case ExecutePending(key) => r := this.ExecutePending(funds, key);
      case UpdateTrustedAddresses(addrs) => r := UpdateTrusted(sender, addrs);
      case AddXrplTokens(added) => r := AddTokens(sender, added);
      case UpdateMinAmount(n) =>
        if sender != config.owner {
          return Err(Unauthorized);
        }
        r := SaveConfig(config.(minAmount := n));
      case UpdateMaxAmount(n) =>
        if sender != config.owner {
          return Err(Unauthorized);
        }
        r := SaveConfig(config.(maxAmount := n));
      case UpdateOwner(newOwner) =>
        if sender != config.owner {
          return Err(Unauthorized);
        }
        if !api.addrOk(newOwner) {
          return Err(InvalidAddress);
        }
        r := SaveConfig(config.(owner := newOwner));
    }

    method Migrated(newOwner: Option<string>) returns (r: Result<Option<Payout>, Error>)
      modifies this`config
      ensures match Migrate(api, old(St()), newOwner)
              case Ok(o) => r == Ok(o.payout) && St() == o.st
              case Err(e) => r == Err(e) && St() == old(St())
    {
      if newOwner.None? {
        return Ok(None);
      }
      if !api.addrOk(newOwner.value) {
        return Err(InvalidAddress);
      }
      r := SaveConfig(config.(owner := newOwner.value));
    }
  }
}
