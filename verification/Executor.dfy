/**
 * The relayer's executor: it votes for each transfer it finds, retrying until the contract
 * answers in a way that settles the matter. Calls may get lost on the way there or back, and
 * any steps of others fall in between.
 */
module Executor {
  import opened Prelude
  import opened EvidenceId
  import opened ContractModel
  import opened Chain
  import opened Invariants
  import opened Safety
  import opened Finder

  /** What becomes of the submitted vote: it never arrives, its answer is lost, or it is answered. */
  datatype Delivery = Lost | Silent | Answered

  /** One pass of the retry body: steps of others, the config query, more steps, the submission. */
  datatype Attempt = Attempt(before: seq<Step>, configOk: bool, between: seq<Step>, bankOk: bool, delivery: Delivery)

  function VoteCall(sender: string, send: PendingSend, bankOk: bool): Step {
    Call(sender, [], bankOk, ThresholdBankSend(send.hash, send.amount, send.destination))
  }

  /** The transfer is paid under its id, or the sender's vote for it is on record. */
  predicate Settled(w: World, sender: string, send: PendingSend) {
    var id := Lower(send.hash);
    var key := KeyOf(id, send.amount, send.destination);
    id in w.st.sent || (key in w.st.pending && sender in w.st.pending[key].providers)
  }

  /** The minimum amount was above the transfer at some point of the run. */
  ghost predicate WasLow(api: Api, w: World, trace: seq<Step>, send: PendingSend) {
    exists k: nat :: LowAfter(api, w, trace, k, send)
  }

  ghost predicate LowAfter(api: Api, w: World, trace: seq<Step>, k: nat, send: PendingSend) {
    k <= |trace| && Run(api, w, trace[..k]).st.config.minAmount > send.amount.amount
  }

  lemma OneStep(api: Api, w: World, s: Step)
    ensures Run(api, w, [s]) == Next(api, w, s)
  {
    assert [s][1..] == [];
  }

  /** An accepted vote settles the transfer, and so do the two refusals the executor takes for an answer. */
  lemma AnswerSettles(api: Api, w: World, sender: string, send: PendingSend, bankOk: bool)
    ensures var r := Apply(api, w, VoteCall(sender, send, bankOk));
      && (r.Ok? ==> Settled(r.value, sender, send))
      && (r == Err(EvidenceAlreadyProvided) || r == Err(TransferAlreadySent) ==> Settled(w, sender, send))
  {
    var c := VoteCall(sender, send, bankOk);
    if Apply(api, w, c).Ok? {
      VoteEffect(api, w, c);
    }
  }

  /** The bank can serve the payment this vote would trigger, if it would trigger one. */
  ghost predicate BankReady(w: World, sender: string, send: PendingSend, bankOk: bool) {
    var v := NewVote(w.st, sender, send.hash, send.amount, send.destination);
    var coin := if v.key in w.st.pending then w.st.pending[v.key].amount else send.amount;
    v.place == w.st.config.threshold && send.amount.amount <= w.st.config.maxAmount ==>
      bankOk && Balance(w.balance, coin.denom) >= coin.amount
  }

  /** A vote is accepted exactly when it is admissible, not settled already, and payable if it has to pay. */
  lemma VoteAcceptedIff(api: Api, w: World, sender: string, send: PendingSend, bankOk: bool)
    ensures Apply(api, w, VoteCall(sender, send, bankOk)).Ok?
       <==> && api.addrOk(send.destination)
            && sender in w.st.config.trusted
            && w.st.config.minAmount <= send.amount.amount
            && !Settled(w, sender, send)
            && BankReady(w, sender, send, bankOk)
  {
    assert CreditAll(w.balance, []) == w.balance;
  }

  /** Which refusal of a vote means what; earlier checks come first. */
  lemma VoteRefused(api: Api, w: World, sender: string, send: PendingSend, bankOk: bool)
    ensures var r := Apply(api, w, VoteCall(sender, send, bankOk));
      var key := KeyOf(Lower(send.hash), send.amount, send.destination);
      var admissible := api.addrOk(send.destination) && sender in w.st.config.trusted
                        && w.st.config.minAmount <= send.amount.amount;
      && (r == Err(InvalidAddress) <==> !api.addrOk(send.destination))
      && (r == Err(Unauthorized) <==> api.addrOk(send.destination) && sender !in w.st.config.trusted)
      && (r == Err(LowAmount) <==> && api.addrOk(send.destination) && sender in w.st.config.trusted
                                   && send.amount.amount < w.st.config.minAmount)
      && (r == Err(TransferAlreadySent) <==> admissible && Lower(send.hash) in w.st.sent)
      && (r == Err(EvidenceAlreadyProvided) <==> && admissible && Lower(send.hash) !in w.st.sent
                                                 && key in w.st.pending && sender in w.st.pending[key].providers)
  {
  }

  /** What keeps a vote from settling its transfer. */
  ghost predicate Obstructed(api: Api, w: World, sender: string, send: PendingSend, bankOk: bool) {
    || !api.addrOk(send.destination)
    || sender !in w.st.config.trusted
    || w.st.config.minAmount > send.amount.amount
    || (!Settled(w, sender, send) && !BankReady(w, sender, send, bankOk))
  }

  predicate IsFinal(answer: Result<World, Error>) {
    answer.Ok? || answer.error == EvidenceAlreadyProvided || answer.error == TransferAlreadySent
  }

  /** The executor takes the answer for final exactly when nothing obstructs the vote. */
  lemma FinalIff(api: Api, w: World, sender: string, send: PendingSend, bankOk: bool)
    ensures IsFinal(Apply(api, w, VoteCall(sender, send, bankOk))) <==> !Obstructed(api, w, sender, send, bankOk)
  {
    VoteAcceptedIff(api, w, sender, send, bankOk);
  }

  // ---------- the retry body ----------

  /** What an attempt that does not end the matter adds to the run. */
  function AttemptSteps(sender: string, send: PendingSend, a: Attempt): seq<Step> {
    if !a.configOk then a.before
    else a.before + a.between + if a.delivery == Lost then [] else [VoteCall(sender, send, a.bankOk)]
  }

  function AllSteps(sender: string, send: PendingSend, attempts: seq<Attempt>): seq<Step> {
    if attempts == [] then []
    else AllSteps(sender, send, attempts[..|attempts| - 1]) + AttemptSteps(sender, send, attempts[|attempts| - 1])
  }

  /** The attempt, started in `w`, ends the matter: the transfer is seen to be too low, or the vote is settled. */
  ghost predicate Ends(api: Api, w: World, sender: string, send: PendingSend, a: Attempt) {
    && a.configOk
    && (Run(api, w, a.before).st.config.minAmount > send.amount.amount
        || (a.delivery == Answered && !Obstructed(api, Run(api, w, a.before + a.between), sender, send, a.bankOk)))
  }

  ghost predicate EndsAt(api: Api, w: World, sender: string, send: PendingSend, attempts: seq<Attempt>, i: nat) {
    i < |attempts| && Ends(api, Run(api, w, AllSteps(sender, send, attempts[..i])), sender, send, attempts[i])
  }

  /** Some attempt ends the matter. */
  ghost predicate Finishes(api: Api, w: World, sender: string, send: PendingSend, attempts: seq<Attempt>) {
    exists i: nat :: EndsAt(api, w, sender, send, attempts, i)
  }

  /** A step that others took while the executor was at it. */
  ghost predicate Foreign(attempts: seq<Attempt>, s: Step) {
    exists a :: a in attempts && (s in a.before || s in a.between)
  }

  predicate IsVoteFor(s: Step, sender: string, send: PendingSend) {
    s.Call? && s == VoteCall(sender, send, s.bankOk)
  }

  /** The executor's own steps are votes for this transfer. */
  ghost predicate OnlyVotes(trace: seq<Step>, sender: string, send: PendingSend, attempts: seq<Attempt>) {
    forall s :: s in trace ==> Foreign(attempts, s) || IsVoteFor(s, sender, send)
  }

  /** One pass of the retry body. */
  method Try(api: Api, w: World, sender: string, send: PendingSend, a: Attempt)
    returns (w': World, ended: bool, low: bool, ghost trace: seq<Step>)
    ensures w' == Run(api, w, trace) && OnlyVotes(trace, sender, send, [a])
    ensures ended <==> Ends(api, w, sender, send, a)
    ensures low <==> a.configOk && Run(api, w, a.before).st.config.minAmount > send.amount.amount
    ensures low ==> ended && trace == a.before + a.between
    ensures !ended ==> trace == AttemptSteps(sender, send, a)
    ensures ended && !low ==> Settled(w', sender, send)
    ensures ended && low ==> WasLow(api, w, trace, send)
  {
    ended, low, trace := false, false, a.before;
    w' := Run(api, w, a.before);
    if !a.configOk {
      return;
    }
    var minAmount := w'.st.config.minAmount;
    trace := a.before + a.between;
    RunConcat(api, w, a.before, a.between);
    w' := Run(api, w', a.between);
    if minAmount > send.amount.amount {
      assert trace[..|a.before|] == a.before;
      assert LowAfter(api, w, trace, |a.before|, send);
      ended, low := true, true;
      return;
    }
    if a.delivery == Lost {
      return;
    }
    ghost var ready := trace;
    var answer;
    answer, w' := Submit(api, w', sender, send, a.bankOk);
    RunConcat(api, w, ready, [VoteCall(sender, send, a.bankOk)]);
    trace := ready + [VoteCall(sender, send, a.bankOk)];
    if a.delivery == Silent {
      return;
    }
    ended := IsFinal(answer);
  }

  /** The submission: a final answer means that the transfer is settled, any other that the vote was obstructed. */
  method Submit(api: Api, w: World, sender: string, send: PendingSend, bankOk: bool)
    returns (answer: Result<World, Error>, w': World)
    ensures w' == Run(api, w, [VoteCall(sender, send, bankOk)])
    ensures IsFinal(answer) <==> !Obstructed(api, w, sender, send, bankOk)
    ensures IsFinal(answer) ==> Settled(w', sender, send)
  {
    var c := VoteCall(sender, send, bankOk);
    answer, w' := Apply(api, w, c), Next(api, w, c);
    AnswerSettles(api, w, sender, send, bankOk);
    FinalIff(api, w, sender, send, bankOk);
    OneStep(api, w, c);
  }

  /** The first `i` attempts are behind, none of them ended the matter, and `trace` is what they added to the run. */
  ghost predicate Tried(api: Api, w: World, sender: string, send: PendingSend, attempts: seq<Attempt>, i: nat, trace: seq<Step>) {
    && i <= |attempts| && trace == AllSteps(sender, send, attempts[..i])
    && OnlyVotes(trace, sender, send, attempts)
    && forall j: nat :: j < i ==> !EndsAt(api, w, sender, send, attempts, j)
  }

  /** The next attempt, seen from the start of the run. */
  lemma TriedNext(api: Api, w: World, sender: string, send: PendingSend, attempts: seq<Attempt>, i: nat,
                  trace: seq<Step>, more: seq<Step>)
    requires Tried(api, w, sender, send, attempts, i, trace) && i < |attempts|
    requires OnlyVotes(more, sender, send, [attempts[i]])
    ensures OnlyVotes(trace + more, sender, send, attempts)
    ensures Ends(api, Run(api, w, trace), sender, send, attempts[i]) ==> Finishes(api, w, sender, send, attempts)
    ensures !Ends(api, Run(api, w, trace), sender, send, attempts[i]) && more == AttemptSteps(sender, send, attempts[i])
            ==> Tried(api, w, sender, send, attempts, i + 1, trace + more)
  {
    assert attempts[..i + 1][..i] == attempts[..i];
    assert EndsAt(api, w, sender, send, attempts, i) <==> Ends(api, Run(api, w, trace), sender, send, attempts[i]);
    forall s | s in trace + more ensures Foreign(attempts, s) || IsVoteFor(s, sender, send) {
      if s in more && Foreign([attempts[i]], s) {
        assert attempts[i] in attempts;
      }
    }
  }

  lemma TriedAll(api: Api, w: World, sender: string, send: PendingSend, attempts: seq<Attempt>, trace: seq<Step>)
    requires Tried(api, w, sender, send, attempts, |attempts|, trace)
    ensures !Finishes(api, w, sender, send, attempts) && trace == AllSteps(sender, send, attempts)
  {
    assert attempts[..|attempts|] == attempts;
  }

  /**
   * The retries for one transfer. They are done exactly if some attempt ends the matter; then the
   * transfer is settled, or `low` is set and it was below the minimum when the config was read.
   */
  method Process(api: Api, w: World, sender: string, send: PendingSend, attempts: seq<Attempt>)
    returns (w': World, done: bool, low: bool, ghost trace: seq<Step>)
    ensures w' == Run(api, w, trace) && OnlyVotes(trace, sender, send, attempts)
    ensures done <==> Finishes(api, w, sender, send, attempts)
    ensures !done ==> trace == AllSteps(sender, send, attempts)
    ensures done && !low ==> Settled(w', sender, send)
    ensures done && low ==> WasLow(api, w, trace, send)
  {
    w', done, low, trace := w, false, false, [];
    for i := 0 to |attempts|
      invariant w' == Run(api, w, trace) && !done
      invariant Tried(api, w, sender, send, attempts, i, trace)
    {
      ghost var before, more := trace, [];
      w', done, low, more := Try(api, w', sender, send, attempts[i]);
      RunConcat(api, w, before, more);
      TriedNext(api, w, sender, send, attempts, i, before, more);
      trace := before + more;
      if done {
        if low {
          LowWithin(api, w, before, more, send);
        }
        return;
      }
    }
    TriedAll(api, w, sender, send, attempts, trace);
  }

  /** All payloads of the transfer's key have its id, as for XRPL hashes and denoms without a digit after a dash. */
  ghost predicate OneIdSend(api: Api, send: PendingSend) {
    OneId(api, KeyOf(Lower(send.hash), send.amount, send.destination), Lower(send.hash))
  }

  /** What was settled stays settled, however the run goes on and whatever others vote for. */
  lemma SettledForEver(api: Api, start: World, before: seq<Step>, after: seq<Step>, sender: string, send: PendingSend)
    requires Fresh(api, start) && OneIdSend(api, send)
    requires Settled(Run(api, start, before), sender, send)
    ensures Settled(Run(api, start, before + after), sender, send)
  {
    var w, w' := Run(api, start, before), Run(api, start, before + after);
    var id := Lower(send.hash);
    var key := KeyOf(id, send.amount, send.destination);
    RunConcat(api, start, before, after);
    RunGrows(api, w, after);
    ReachableInv(api, start, before);
    ReachablePaidOnce(api, start, before + after, key, id);
    if id !in w.st.sent {
      ProviderVoted(api, w, key, w.st.pending[key], sender);
      var v :| v in w.votes && v.voter == sender && v.key == key;
      VoteHasOneId(api, w', v, id);
      assert VoteKept(w', v);
    }
  }

  // ---------- from settled senders to payment ----------

  /** The transfer is paid under its id, or waits with a threshold of votes, the last of them above the cap. */
  ghost predicate PaidOrParked(w: World, send: PendingSend) {
    var id := Lower(send.hash);
    var key := KeyOf(id, send.amount, send.destination);
    id in w.st.sent
    || (key in w.st.pending && |w.st.pending[key].providers| >= w.st.config.threshold
        && exists v :: v in w.votes && v.key == key && v.place == w.st.config.threshold && v.cfg.maxAmount < v.amount.amount)
  }

  /** A transfer that a threshold of senders has settled is paid, or parked above the cap. */
  lemma QuorumSettles(api: Api, w: World, names: seq<string>, send: PendingSend)
    requires Inv(api, w) && NoDup(names) && |names| >= w.st.config.threshold
    requires forall a :: a in names ==> Settled(w, a, send)
    ensures PaidOrParked(w, send)
  {
    var key := KeyOf(Lower(send.hash), send.amount, send.destination);
    if Lower(send.hash) !in w.st.sent {
      assert Settled(w, names[0], send);
      var tx, t := w.st.pending[key], w.st.config.threshold;
      NoDupCard(names);
      NoDupCard(tx.providers);
      SubsetCard(Elems(names), Elems(tx.providers));
      assert Parked(w.votes, t, key, tx);
      var v :| v in w.votes && IsPlace(v, key, tx, t - 1) && v.cfg.maxAmount < v.amount.amount;
    }
  }

  /** The sender had settled the transfer at some point of the run. */
  ghost predicate SettledBy(api: Api, start: World, steps: seq<Step>, sender: string, send: PendingSend) {
    exists k: nat :: k <= |steps| && Settled(Run(api, start, steps[..k]), sender, send)
  }

  /**
   * Delivery: once a threshold of relayers have settled a transfer, each at its own point of the run,
   * it is paid, or waits for manual execution above the cap, whatever anybody else votes for.
   */
  lemma QuorumDelivers(api: Api, start: World, steps: seq<Step>, names: seq<string>, send: PendingSend)
    requires Fresh(api, start) && OneIdSend(api, send)
    requires NoDup(names) && |names| >= Run(api, start, steps).st.config.threshold
    requires forall a :: a in names ==> SettledBy(api, start, steps, a, send)
    ensures PaidOrParked(Run(api, start, steps), send)
  {
    var w := Run(api, start, steps);
    ReachableInv(api, start, steps);
    forall a | a in names ensures Settled(w, a, send) {
      var k: nat :| k <= |steps| && Settled(Run(api, start, steps[..k]), a, send);
      assert steps == steps[..k] + steps[k..];
      SettledForEver(api, start, steps[..k], steps[k..], a, send);
    }
    QuorumSettles(api, w, names, send);
  }

  // ---------- the loop over all transfers ----------

  datatype Job = Job(send: PendingSend, attempts: seq<Attempt>)

  /** The finished transfers: seen below the minimum, or settled in the world the run has led to. */
  ghost predicate AllFinished(api: Api, start: World, trace: seq<Step>, sender: string, jobs: seq<Job>, lows: seq<bool>) {
    && |lows| <= |jobs|
    && forall i :: 0 <= i < |lows| ==>
         if lows[i] then WasLow(api, start, trace, jobs[i].send)
         else OneIdSend(api, jobs[i].send) ==> Settled(Run(api, start, trace), sender, jobs[i].send)
  }

  /** None of the job's attempts ended the matter, and the run ends with the last of them. */
  ghost predicate GotStuck(api: Api, start: World, trace: seq<Step>, sender: string, job: Job) {
    exists k: nat :: StuckFrom(api, start, trace, sender, job, k)
  }

  ghost predicate StuckFrom(api: Api, start: World, trace: seq<Step>, sender: string, job: Job, k: nat) {
    && k <= |trace| && trace[k..] == AllSteps(sender, job.send, job.attempts)
    && !Finishes(api, Run(api, start, trace[..k]), sender, job.send, job.attempts)
  }

  /** The executor's own steps are votes for its jobs. */
  ghost predicate OnlyJobVotes(trace: seq<Step>, sender: string, jobs: seq<Job>) {
    forall s :: s in trace ==> exists j :: j in jobs && (Foreign(j.attempts, s) || IsVoteFor(s, sender, j.send))
  }

  /**
   * The executor's loop over the transfers it receives: every finished one is settled at the end
   * or was seen below the minimum, and it stops short only at a transfer none of whose attempts
   * ends the matter, as a cancelled context does.
   */
  method Start(api: Api, start: World, ghost past: seq<Step>, w: World, sender: string, jobs: seq<Job>)
    returns (w': World, lows: seq<bool>, ghost trace: seq<Step>)
    requires Fresh(api, start) && w == Run(api, start, past)
    ensures w' == Run(api, start, past + trace) && OnlyJobVotes(trace, sender, jobs)
    ensures AllFinished(api, start, past + trace, sender, jobs, lows)
    ensures |lows| < |jobs| ==> GotStuck(api, start, past + trace, sender, jobs[|lows|])
  {
    w', lows, trace := w, [], [];
    ghost var all := past;
    assert all == past + trace;
    for i := 0 to |jobs|
      invariant |lows| == i && all == past + trace
      invariant w' == Run(api, start, all) && OnlyJobVotes(trace, sender, jobs)
      invariant AllFinished(api, start, all, sender, jobs, lows)
    {
      var done, low;
      ghost var prior, more := all, [];
      w', done, low, more := Process(api, w', sender, jobs[i].send, jobs[i].attempts);
      NextJob(api, start, prior, more, sender, jobs, lows, done, low);
      MoreJobVotes(trace, more, sender, jobs, jobs[i]);
      ConcatAssoc(past, trace, more);
      trace, all := trace + more, prior + more;
      if !done {
        return;
      }
      lows := lows + [low];
    }
  }

  /** What running one more job means for the run as a whole. */
  lemma NextJob(api: Api, start: World, prior: seq<Step>, more: seq<Step>, sender: string, jobs: seq<Job>,
                lows: seq<bool>, done: bool, low: bool)
    requires Fresh(api, start) && AllFinished(api, start, prior, sender, jobs, lows) && |lows| < |jobs|
    requires var w, job := Run(api, start, prior), jobs[|lows|];
      && (done && !low ==> Settled(Run(api, w, more), sender, job.send))
      && (done && low ==> WasLow(api, w, more, job.send))
      && (!done ==> !Finishes(api, w, sender, job.send, job.attempts) && more == AllSteps(sender, job.send, job.attempts))
    ensures Run(api, start, prior + more) == Run(api, Run(api, start, prior), more)
    ensures AllFinished(api, start, prior + more, sender, jobs, if done then lows + [low] else lows)
    ensures !done ==> GotStuck(api, start, prior + more, sender, jobs[|lows|])
  {
    RunConcat(api, start, prior, more);
    EarlierJobs(api, start, prior, more, sender, jobs, lows);
    if done {
      if low {
        LowWithin(api, start, prior, more, jobs[|lows|].send);
      }
      JobDone(api, start, prior + more, sender, jobs, lows, low);
    } else {
      assert (prior + more)[|prior|..] == more && (prior + more)[..|prior|] == prior;
      assert StuckFrom(api, start, prior + more, sender, jobs[|lows|], |prior|);
    }
  }

  lemma JobDone(api: Api, start: World, trace: seq<Step>, sender: string, jobs: seq<Job>, lows: seq<bool>, low: bool)
    requires AllFinished(api, start, trace, sender, jobs, lows) && |lows| < |jobs|
    requires if low then WasLow(api, start, trace, jobs[|lows|].send)
             else Settled(Run(api, start, trace), sender, jobs[|lows|].send)
    ensures AllFinished(api, start, trace, sender, jobs, lows + [low])
  {
  }

  lemma MoreJobVotes(trace: seq<Step>, more: seq<Step>, sender: string, jobs: seq<Job>, j: Job)
    requires OnlyJobVotes(trace, sender, jobs) && OnlyVotes(more, sender, j.send, j.attempts) && j in jobs
    ensures OnlyJobVotes(trace + more, sender, jobs)
  {
    forall s | s in trace + more
      ensures exists j :: j in jobs && (Foreign(j.attempts, s) || IsVoteFor(s, sender, j.send))
    {
      assert s in more ==> Foreign(j.attempts, s) || IsVoteFor(s, sender, j.send);
    }
  }

  lemma LowWithin(api: Api, start: World, prior: seq<Step>, more: seq<Step>, send: PendingSend)
    requires WasLow(api, Run(api, start, prior), more, send)
    ensures WasLow(api, start, prior + more, send)
  {
    var k: nat :| LowAfter(api, Run(api, start, prior), more, k, send);
    RunConcat(api, start, prior, more[..k]);
    assert (prior + more)[..|prior| + k] == prior + more[..k];
    assert LowAfter(api, start, prior + more, |prior| + k, send);
  }

  lemma EarlierJobs(api: Api, start: World, prior: seq<Step>, more: seq<Step>, sender: string, jobs: seq<Job>, lows: seq<bool>)
    requires Fresh(api, start) && AllFinished(api, start, prior, sender, jobs, lows)
    ensures AllFinished(api, start, prior + more, sender, jobs, lows)
  {
    forall i | 0 <= i < |lows|
      ensures if lows[i] then WasLow(api, start, prior + more, jobs[i].send)
              else OneIdSend(api, jobs[i].send) ==> Settled(Run(api, start, prior + more), sender, jobs[i].send)
    {
      if lows[i] {
        var k: nat :| LowAfter(api, start, prior, k, jobs[i].send);
        assert (prior + more)[..k] == prior[..k];
        assert LowAfter(api, start, prior + more, k, jobs[i].send);
      } else if OneIdSend(api, jobs[i].send) {
        SettledForEver(api, start, prior, more, sender, jobs[i].send);
      }
    }
  }
}
