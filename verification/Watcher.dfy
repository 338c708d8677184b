/** The config watcher: it compares version numbers, and what that is worth over a run of the contract. */
module Watcher {
  import opened ContractModel
  import opened Chain
  import opened Safety

  /** A tick of the poll timer: the query fails, or shows the config then in force. */
  datatype Poll = QueryFailed | Seen(cfg: Config)

  datatype Outcome = Watching | Changed(poll: nat)

  class ConfigWatcher {
    var currentVersion: nat

    constructor ()
      ensures currentVersion == 0
    {
      currentVersion := 0;
    }

    /** Records the version shown by the query; a failed query changes nothing. */
    method Initialize(query: Poll) returns (ok: bool)
      modifies this
      ensures ok <==> query.Seen?
      ensures currentVersion == if query.Seen? then query.cfg.version else old(currentVersion)
    {
      if query.QueryFailed? {
        return false;
      }
      currentVersion := query.cfg.version;
      return true;
    }

    /** Stops at the first successful poll that shows another version, and only there. */
    method Watch(polls: seq<Poll>) returns (r: Outcome)
      ensures match r
        case Changed(i) => i < |polls| && Differs(polls[i], currentVersion)
                           && forall j :: 0 <= j < i ==> !Differs(polls[j], currentVersion)
        case Watching => forall j :: 0 <= j < |polls| ==> !Differs(polls[j], currentVersion)
    {
      for i := 0 to |polls|
        invariant forall j :: 0 <= j < i ==> !Differs(polls[j], currentVersion)
      {
        if polls[i].QueryFailed? {
          continue;
        }
        if polls[i].cfg.version != currentVersion {
          return Changed(i);
        }
      }
      return Watching;
    }
  }

  predicate Differs(poll: Poll, version: nat) {
    poll.Seen? && poll.cfg.version != version
  }

  /**
   * The finders were built from the config at `w`, the watcher was initialised after `between`,
   * and polls after `after`. The poll reports a change exactly when the config differs from the
   * one the watcher was initialised with.
   */
  lemma PollReportsChange(api: Api, w: World, between: seq<Step>, after: seq<Step>)
    ensures var recorded := Run(api, w, between).st.config;
      var current := Run(api, w, between + after).st.config;
      Differs(Seen(current), recorded.version) <==> current != recorded
  {
    RunConcat(api, w, between, after);
    RunGrows(api, Run(api, w, between), after);
  }

  /**
   * It therefore reports every departure from the finders' config exactly when the recorded
   * version is the version of that config; otherwise the update in the gap goes unseen.
   */
  lemma StaleFindersUnseen(api: Api, w: World, between: seq<Step>, after: seq<Step>)
    ensures var used := w.st.config;
      var recorded := Run(api, w, between).st.config;
      var current := Run(api, w, between + after).st.config;
      && (recorded.version == used.version ==> (Differs(Seen(current), recorded.version) <==> current != used))
      && ((current != used && !Differs(Seen(current), recorded.version))
          <==> (recorded.version != used.version && current == recorded))
  {
    RunGrows(api, w, between);
    RunConcat(api, w, between, after);
    RunGrows(api, Run(api, w, between), after);
  }

  // ---------- watching a run ----------

  /** What happens up to a poll, and whether its query gets through. */
  datatype Tick = Tick(steps: seq<Step>, ok: bool)

  function StepsOf(ticks: seq<Tick>): seq<Step> {
    if ticks == [] then [] else StepsOf(ticks[..|ticks| - 1]) + ticks[|ticks| - 1].steps
  }

  /** The config in force at the i-th poll. */
  function ConfigAt(api: Api, w: World, ticks: seq<Tick>, i: nat): Config
    requires i < |ticks|
  {
    Run(api, w, StepsOf(ticks[..i + 1])).st.config
  }

  function Polls(api: Api, w: World, ticks: seq<Tick>): seq<Poll> {
    seq(|ticks|, i requires 0 <= i < |ticks| => if ticks[i].ok then Seen(ConfigAt(api, w, ticks, i)) else QueryFailed)
  }

  /** The watch ends at the first poll that gets through and shows another config than `cfg`, and only there. */
  ghost predicate StopsAtFirstChange(api: Api, w: World, ticks: seq<Tick>, cfg: Config, r: Outcome) {
    match r
    case Changed(i) => i < |ticks| && ticks[i].ok && ConfigAt(api, w, ticks, i) != cfg
                       && forall j :: 0 <= j < i && ticks[j].ok ==> ConfigAt(api, w, ticks, j) == cfg
    case Watching => forall j :: 0 <= j < |ticks| && ticks[j].ok ==> ConfigAt(api, w, ticks, j) == cfg
  }

  lemma PollDiffers(api: Api, w: World, ticks: seq<Tick>, i: nat)
    requires i < |ticks|
    ensures Differs(Polls(api, w, ticks)[i], w.st.config.version)
       <==> ticks[i].ok && ConfigAt(api, w, ticks, i) != w.st.config
  {
    RunGrows(api, w, StepsOf(ticks[..i + 1]));
  }

  /**
   * The service: finders built from the config at `w`, the watcher initialised after `between`, then
   * the watch. It stops at the first successful poll that departs from the recorded config, which
   * is the finders' config exactly if the recorded version is.
   */
  method Supervise(api: Api, w: World, between: seq<Step>, ticks: seq<Tick>) returns (r: Outcome)
    ensures StopsAtFirstChange(api, Run(api, w, between), ticks, Run(api, w, between).st.config, r)
    ensures Run(api, w, between).st.config.version == w.st.config.version ==>
              StopsAtFirstChange(api, Run(api, w, between), ticks, w.st.config, r)
  {
    var w1 := Run(api, w, between);
    var watcher := new ConfigWatcher();
    var ok := watcher.Initialize(Seen(w1.st.config));
    r := watcher.Watch(Polls(api, w1, ticks));
    forall i | 0 <= i < |ticks|
      ensures Differs(Polls(api, w1, ticks)[i], w1.st.config.version)
         <==> ticks[i].ok && ConfigAt(api, w1, ticks, i) != w1.st.config
    {
      PollDiffers(api, w1, ticks, i);
    }
    RunGrows(api, w, between);
  }
}
