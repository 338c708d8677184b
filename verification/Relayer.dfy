/** One relayer for one token, from the scan to the vote: no burn in the scanned range is missed. */
module Relayer {
  import opened Prelude
  import opened EvidenceId
  import opened ContractModel
  import opened Chain
  import opened Safety
  import opened Finder
  import opened FinderSpec
  import Scanner
  import Executor

  /** The transfers found among the delivered transactions, in order, each with its own retry conditions. */
  function Jobs(codec: Codec, cfg: FinderConfig, txs: seq<XrplTx>, attempts: nat -> seq<Executor.Attempt>)
    : seq<Executor.Job>
  {
    if txs == [] then []
    else
      var n := |txs| - 1;
      var found := BuildPending(codec, cfg, txs[n]);
      Jobs(codec, cfg, txs[..n], attempts) + if found.Some? then [Executor.Job(found.value, attempts(n))] else []
  }

  /** The job is what the finder made of the n-th delivered transaction. */
  ghost predicate IsJobOf(codec: Codec, cfg: FinderConfig, txs: seq<XrplTx>, attempts: nat -> seq<Executor.Attempt>,
                          j: Executor.Job, n: nat) {
    n < |txs| && BuildPending(codec, cfg, txs[n]) == Some(j.send) && j.attempts == attempts(n)
  }

  lemma {:induction false} JobsMeaning(codec: Codec, cfg: FinderConfig, txs: seq<XrplTx>, attempts: nat -> seq<Executor.Attempt>)
    ensures var jobs := Jobs(codec, cfg, txs, attempts);
      && (forall tx :: tx in txs && BuildPending(codec, cfg, tx).Some? ==>
            exists j :: j in jobs && j.send == BuildPending(codec, cfg, tx).value)
      && (forall j :: j in jobs ==> exists n: nat :: IsJobOf(codec, cfg, txs, attempts, j, n))
  {
    if txs != [] {
      var n := |txs| - 1;
      JobsMeaning(codec, cfg, txs[..n], attempts);
      var before, jobs := Jobs(codec, cfg, txs[..n], attempts), Jobs(codec, cfg, txs, attempts);
      assert txs == txs[..n] + [txs[n]];
      forall tx | tx in txs && BuildPending(codec, cfg, tx).Some?
        ensures exists j :: j in jobs && j.send == BuildPending(codec, cfg, tx).value
      {
        if tx in txs[..n] {
          var j :| j in before && j.send == BuildPending(codec, cfg, tx).value;
          assert j in jobs;
        } else {
          assert jobs[|before|].send == BuildPending(codec, cfg, tx).value;
        }
      }
      forall j | j in jobs ensures exists n: nat :: IsJobOf(codec, cfg, txs, attempts, j, n) {
        if j in before {
          var m: nat :| IsJobOf(codec, cfg, txs[..n], attempts, j, m);
          assert IsJobOf(codec, cfg, txs, attempts, j, m);
        } else {
          assert IsJobOf(codec, cfg, txs, attempts, j, n);
        }
      }
    }
  }

  /** The jobs for an accepted token are exactly the transfers that burns among the transactions entitle to. */
  lemma TokenJobs(api: Api, codec: Codec, settings: Settings, t: XrplToken, txs: seq<XrplTx>,
                  attempts: nat -> seq<Executor.Attempt>, send: PendingSend)
    requires TokenError(api, t).None? && SameDecimals(api, codec)
    ensures (exists j :: j in Jobs(codec, FinderOf(codec, settings, t), txs, attempts) && j.send == send)
       <==> exists tx :: tx in txs && IsTransfer(api, codec, settings, t, tx, send)
  {
    var cfg := FinderOf(codec, settings, t);
    forall tx | tx in txs
      ensures BuildPending(codec, cfg, tx) == Some(send) <==> IsTransfer(api, codec, settings, t, tx, send)
    {
      TransferIff(api, codec, settings, t, tx, send);
    }
    if tx :| tx in txs && IsTransfer(api, codec, settings, t, tx, send) {
      var i := HasJob(codec, cfg, txs, attempts, tx);
      assert Jobs(codec, cfg, txs, attempts)[i] in Jobs(codec, cfg, txs, attempts);
    }
    if j :| j in Jobs(codec, cfg, txs, attempts) && j.send == send {
      var n := JobOrigin(codec, cfg, txs, attempts, j);
      assert txs[n] in txs;
    }
  }

  lemma JobOrigin(codec: Codec, cfg: FinderConfig, txs: seq<XrplTx>, attempts: nat -> seq<Executor.Attempt>, j: Executor.Job)
    returns (n: nat)
    requires j in Jobs(codec, cfg, txs, attempts)
    ensures IsJobOf(codec, cfg, txs, attempts, j, n)
  {
    JobsMeaning(codec, cfg, txs, attempts);
    n :| IsJobOf(codec, cfg, txs, attempts, j, n);
  }

  /** The finder accepts a transaction of the history and makes `send` of it. */
  ghost predicate Found(codec: Codec, cfg: FinderConfig, history: seq<Scanner.Item>, send: PendingSend) {
    exists e :: e in history && BuildPending(codec, cfg, e.tx) == Some(send)
  }

  /** Hashes and decoded addresses have no dash, and the denom none before a digit. */
  ghost predicate PlainTransfers(api: Api, codec: Codec, cfg: FinderConfig, history: seq<Scanner.Item>) {
    && Bech32Like(api) && NoDigitAfterDash(cfg.denom)
    && (forall e :: e in history ==> '-' !in e.tx.hash)
    && (forall s :: codec.address(s).Some? ==> '-' !in codec.address(s).value)
  }

  /** Whatever the finder makes of the history then has a key with one id. */
  lemma FoundHasOneId(api: Api, codec: Codec, cfg: FinderConfig, history: seq<Scanner.Item>, send: PendingSend)
    requires PlainTransfers(api, codec, cfg, history) && Found(codec, cfg, history, send)
    ensures Executor.OneIdSend(api, send)
  {
    var e :| e in history && BuildPending(codec, cfg, e.tx) == Some(send);
    Emitted(codec, cfg, e.tx);
    FirstAddressMeaning(codec, e.tx.memos, cfg.memoSuffix);
    var i :| 0 <= i < |e.tx.memos| && MemoAddress(codec, e.tx.memos[i], cfg.memoSuffix) == Some(send.destination);
    UnambiguousOneId(api, send.hash, send.amount, send.destination);
    BuildLower(send.hash, send.amount.amount, send.amount.denom, send.destination);
  }

  /** The transfer is paid, voted for by this relayer, or was below the minimum when looked at. */
  ghost predicate DealtWith(api: Api, start: World, trace: seq<Step>, sender: string, send: PendingSend) {
    Executor.Settled(Run(api, start, trace), sender, send) || Executor.WasLow(api, start, trace, send)
  }

  /** Everything the finder makes of the delivered transactions is dealt with. */
  ghost predicate AllDealtWith(api: Api, codec: Codec, cfg: FinderConfig, delivered: seq<XrplTx>,
                               start: World, trace: seq<Step>, sender: string) {
    forall tx :: tx in delivered && BuildPending(codec, cfg, tx).Some? ==>
      DealtWith(api, start, trace, sender, BuildPending(codec, cfg, tx).value)
  }

  /** A transfer got stuck: none of the attempts made for a delivered transaction ended the matter. */
  ghost predicate StuckOnOne(api: Api, codec: Codec, cfg: FinderConfig, delivered: seq<XrplTx>,
                             attempts: nat -> seq<Executor.Attempt>, start: World, trace: seq<Step>, sender: string) {
    exists j, n: nat :: IsJobOf(codec, cfg, delivered, attempts, j, n) && Executor.GotStuck(api, start, trace, sender, j)
  }

  /** The ledgers the two scans have covered: the history up to its cursor, or the split once done, and the recent ones. */
  predicate Scanned(historyStart: int, split: int, done: bool, cursor: int, recent: int, reached: int, ledger: int) {
    || historyStart <= ledger <= cursor
    || split < ledger <= recent
    || split < ledger <= reached
    || (done && historyStart <= ledger && (ledger <= split || ledger <= recent || ledger <= reached))
  }

  /** The relayer's own steps are votes for what the finder made of the history. */
  ghost predicate OnlyFoundVotes(codec: Codec, cfg: FinderConfig, history: seq<Scanner.Item>,
                                 attempts: nat -> seq<Executor.Attempt>, trace: seq<Step>, sender: string) {
    forall s :: s in trace ==>
      || (exists n: nat :: Executor.Foreign(attempts(n), s))
      || (exists send :: Found(codec, cfg, history, send) && Executor.IsVoteFor(s, sender, send))
  }

  /**
   * Scans, finds and votes. The scans get as far as the server lets them; the relayer has voted
   * for all it found unless a transfer it found got stuck; and then every transaction that the
   * finder accepts is dealt with, in whatever ledgers are covered, be the history complete or not.
   */
  method Relay(api: Api, codec: Codec, settings: Settings, t: XrplToken, history: seq<Scanner.Item>,
               historyStart: int, recentBack: int, initialLedger: int,
               scans: seq<Scanner.Attempt>, rounds: seq<Scanner.RecentRound>,
               start: World, ghost past: seq<Step>, w: World, sender: string, attempts: nat -> seq<Executor.Attempt>)
    returns (w': World, delivered: seq<XrplTx>, voted: bool, done: bool, cursor: int, recent: int, reached: int,
             ghost trace: seq<Step>)
    requires Scanner.Ordered(history) && Fresh(api, start) && w == Run(api, start, past)
    requires PlainTransfers(api, codec, FinderOf(codec, settings, t), history)
    ensures w' == Run(api, start, past + trace) && OnlyFoundVotes(codec, FinderOf(codec, settings, t), history, attempts, trace, sender)
    ensures Scanner.OnlyFrom(history, [], delivered)
    ensures recentBack <= 0 ==> delivered == []
    ensures recentBack > 0 && Scanner.HistoryGetsThrough(history, scans) ==> done
    ensures recentBack > 0 && (forall a :: a in scans ==> Scanner.NeverCancels(a)) ==> cursor >= historyStart - 1
    ensures recentBack > 0 && Scanner.RoundsGoOn(rounds) ==> recent >= initialLedger - recentBack
    ensures recentBack > 0 && Scanner.RoundsGoOn(rounds) && Scanner.Decodable(history) ==>
              Scanner.ReachesRounds(rounds, reached)
    ensures recentBack > 0 ==>
              forall e :: e in history
                          && Scanned(historyStart, initialLedger - recentBack, done, cursor, recent, reached, e.tx.ledger) ==>
                e.tx in delivered
    ensures voted || StuckOnOne(api, codec, FinderOf(codec, settings, t), delivered, attempts, start, past + trace, sender)
    ensures voted ==> AllDealtWith(api, codec, FinderOf(codec, settings, t), delivered, start, past + trace, sender)
    ensures voted && TokenError(api, t).None? && SameDecimals(api, codec) ==>
              forall tx, send :: tx in delivered && IsTransfer(api, codec, settings, t, tx, send) ==>
                DealtWith(api, start, past + trace, sender, send)
  {
    var cfg := FinderOf(codec, settings, t);
    var ch := new Scanner.Channel();
    var accepted;
    accepted, done, cursor, recent, reached :=
      Scanner.Subscribe(history, historyStart, recentBack, initialLedger, scans, rounds, ch);
    delivered := ch.delivered;
    var jobs := Jobs(codec, cfg, delivered, attempts);
    var lows;
    w', lows, trace := Executor.Start(api, start, past, w, sender, jobs);
    voted := |lows| == |jobs|;
    JobVotesFound(codec, cfg, history, delivered, attempts, trace, sender);
    if !voted {
      StuckJob(api, codec, cfg, delivered, attempts, start, past + trace, sender, jobs[|lows|]);
    } else {
      forall tx | tx in delivered && BuildPending(codec, cfg, tx).Some?
        ensures DealtWith(api, start, past + trace, sender, BuildPending(codec, cfg, tx).value)
      {
        DeliveredDealtWith(api, codec, cfg, history, delivered, attempts, start, past + trace, sender, lows, tx);
      }
      if TokenError(api, t).None? && SameDecimals(api, codec) {
        TransfersDealtWith(api, codec, settings, t, delivered, start, past + trace, sender);
      }
    }
  }

  lemma TransfersDealtWith(api: Api, codec: Codec, settings: Settings, t: XrplToken, delivered: seq<XrplTx>,
                           start: World, trace: seq<Step>, sender: string)
    requires TokenError(api, t).None? && SameDecimals(api, codec)
    requires AllDealtWith(api, codec, FinderOf(codec, settings, t), delivered, start, trace, sender)
    ensures forall tx, send :: tx in delivered && IsTransfer(api, codec, settings, t, tx, send) ==>
              DealtWith(api, start, trace, sender, send)
  {
    forall tx, send | tx in delivered && IsTransfer(api, codec, settings, t, tx, send)
      ensures DealtWith(api, start, trace, sender, send)
    {
      TransferIff(api, codec, settings, t, tx, send);
    }
  }

  /** A job of delivered transactions stands for a transaction of the history. */
  lemma JobFound(codec: Codec, cfg: FinderConfig, history: seq<Scanner.Item>, txs: seq<XrplTx>,
                 attempts: nat -> seq<Executor.Attempt>, j: Executor.Job)
    returns (n: nat)
    requires Scanner.OnlyFrom(history, [], txs) && j in Jobs(codec, cfg, txs, attempts)
    ensures Found(codec, cfg, history, j.send) && j == Executor.Job(j.send, attempts(n))
  {
    JobsMeaning(codec, cfg, txs, attempts);
    n :| IsJobOf(codec, cfg, txs, attempts, j, n);
    assert Scanner.FromItems(history, txs[n]);
    var e :| e in history && e.tx == txs[n];
  }

  lemma JobVotesFound(codec: Codec, cfg: FinderConfig, history: seq<Scanner.Item>, txs: seq<XrplTx>,
                      attempts: nat -> seq<Executor.Attempt>, trace: seq<Step>, sender: string)
    requires Scanner.OnlyFrom(history, [], txs)
    requires Executor.OnlyJobVotes(trace, sender, Jobs(codec, cfg, txs, attempts))
    ensures OnlyFoundVotes(codec, cfg, history, attempts, trace, sender)
  {
    forall s | s in trace
      ensures (exists n: nat :: Executor.Foreign(attempts(n), s))
           || (exists send :: Found(codec, cfg, history, send) && Executor.IsVoteFor(s, sender, send))
    {
      var j :| j in Jobs(codec, cfg, txs, attempts)
               && (Executor.Foreign(j.attempts, s) || Executor.IsVoteFor(s, sender, j.send));
      var n := JobFound(codec, cfg, history, txs, attempts, j);
    }
  }

  lemma StuckJob(api: Api, codec: Codec, cfg: FinderConfig, txs: seq<XrplTx>,
                 attempts: nat -> seq<Executor.Attempt>, start: World, trace: seq<Step>, sender: string, j: Executor.Job)
    requires j in Jobs(codec, cfg, txs, attempts) && Executor.GotStuck(api, start, trace, sender, j)
    ensures StuckOnOne(api, codec, cfg, txs, attempts, start, trace, sender)
  {
    JobsMeaning(codec, cfg, txs, attempts);
  }

  /** When all jobs are finished, a delivered transaction that the finder accepts is dealt with. */
  lemma DeliveredDealtWith(api: Api, codec: Codec, cfg: FinderConfig, history: seq<Scanner.Item>, txs: seq<XrplTx>,
                           attempts: nat -> seq<Executor.Attempt>, start: World, trace: seq<Step>, sender: string,
                           lows: seq<bool>, tx: XrplTx)
    requires PlainTransfers(api, codec, cfg, history) && Scanner.OnlyFrom(history, [], txs)
    requires tx in txs && BuildPending(codec, cfg, tx).Some?
    requires var jobs := Jobs(codec, cfg, txs, attempts);
      |lows| == |jobs| && Executor.AllFinished(api, start, trace, sender, jobs, lows)
    ensures DealtWith(api, start, trace, sender, BuildPending(codec, cfg, tx).value)
  {
    var jobs, send := Jobs(codec, cfg, txs, attempts), BuildPending(codec, cfg, tx).value;
    var i := HasJob(codec, cfg, txs, attempts, tx);
    assert Scanner.FromItems(history, tx);
    FoundHasOneId(api, codec, cfg, history, send);
    JobDealtWith(api, start, trace, sender, jobs, lows, i);
  }

  lemma {:induction false} HasJob(codec: Codec, cfg: FinderConfig, txs: seq<XrplTx>,
                                  attempts: nat -> seq<Executor.Attempt>, tx: XrplTx)
    returns (i: nat)
    requires tx in txs && BuildPending(codec, cfg, tx).Some?
    ensures i < |Jobs(codec, cfg, txs, attempts)|
    ensures Jobs(codec, cfg, txs, attempts)[i].send == BuildPending(codec, cfg, tx).value
  {
    var n := |txs| - 1;
    if tx == txs[n] {
      i := |Jobs(codec, cfg, txs[..n], attempts)|;
    } else {
      assert tx in txs[..n];
      i := HasJob(codec, cfg, txs[..n], attempts, tx);
    }
  }

  lemma JobDealtWith(api: Api, start: World, trace: seq<Step>, sender: string,
                     jobs: seq<Executor.Job>, lows: seq<bool>, i: nat)
    requires i < |lows| == |jobs| && Executor.AllFinished(api, start, trace, sender, jobs, lows)
    requires Executor.OneIdSend(api, jobs[i].send)
    ensures DealtWith(api, start, trace, sender, jobs[i].send)
  {
    assert lows[i] || !lows[i];
  }

  /**
   * Delivery end to end: a threshold of relayers have dealt with a transfer, each at its own point of
   * the run, and the minimum never was above it. Then it is paid, or waits above the cap with its votes.
   */
  lemma RelayersDeliver(api: Api, start: World, steps: seq<Step>, names: seq<string>, send: PendingSend)
    requires Fresh(api, start) && Executor.OneIdSend(api, send) && !Executor.WasLow(api, start, steps, send)
    requires NoDup(names) && |names| >= Run(api, start, steps).st.config.threshold
    requires forall a :: a in names ==> exists k: nat :: k <= |steps| && DealtWith(api, start, steps[..k], a, send)
    ensures Executor.PaidOrParked(Run(api, start, steps), send)
  {
    forall a | a in names ensures Executor.SettledBy(api, start, steps, a, send) {
      var k: nat :| k <= |steps| && DealtWith(api, start, steps[..k], a, send);
      if Executor.WasLow(api, start, steps[..k], send) {
        LowBefore(api, start, steps, k, send);
        assert false;
      }
    }
    Executor.QuorumDelivers(api, start, steps, names, send);
  }

  lemma LowBefore(api: Api, start: World, steps: seq<Step>, k: nat, send: PendingSend)
    requires k <= |steps| && Executor.WasLow(api, start, steps[..k], send)
    ensures Executor.WasLow(api, start, steps, send)
  {
    var i: nat :| Executor.LowAfter(api, start, steps[..k], i, send);
    assert steps[..k][..i] == steps[..i];
    assert Executor.LowAfter(api, start, steps, i, send);
  }
}
