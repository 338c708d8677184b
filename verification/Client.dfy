/**
 * The relayer's view of the pending map: fetching it page by page against the contract's
 * clamp, and building the batch of manual executions from what was fetched.
 */
module Client {
  import opened Prelude
  import opened ContractModel
  import opened Chain
  import opened Ledger

  const PAGE := 500
  const U32 := 0x1_0000_0000

  /** Up to this many entries the paging arithmetic stays within 32 bits. */
  const MAX_FETCHABLE := 4_294_967_000
  const MAX_PAGES := 0x4000_0000

  datatype PendingTx = PendingTx(key: string, tx: Transaction)

  /** The entries of a map in the fixed order in which the contract walks it. */
  ghost predicate IsListing(entries: seq<PendingTx>, pending: map<string, Transaction>) {
    && (forall i, j :: 0 <= i < j < |entries| ==> entries[i].key != entries[j].key)
    && (forall i :: 0 <= i < |entries| ==> entries[i].key in pending && pending[entries[i].key] == entries[i].tx)
    && (forall k :: k in pending ==> PendingTx(k, pending[k]) in entries)
  }

  /** The contract's paging: at most 500 entries, and an offset cut to the 32 bits of a wasm word. */
  function Page(entries: seq<PendingTx>, offset: Option<nat>, limit: Option<nat>): seq<PendingTx> {
    var wanted := if limit.Some? then limit.value else PAGE;
    var lim := if wanted < PAGE then wanted else PAGE;
    Slice(entries, (if offset.Some? then offset.value else 0) % U32, lim)
  }

  /** At most `lim` entries from `off` on. */
  function Slice(entries: seq<PendingTx>, off: nat, lim: nat): seq<PendingTx> {
    if off >= |entries| then []
    else if off + lim <= |entries| then entries[off..off + lim] else entries[off..]
  }

  lemma SliceMeaning(entries: seq<PendingTx>, off: nat, lim: nat)
    ensures var page := Slice(entries, off, lim);
      && |page| <= lim && (forall i :: 0 <= i < |page| ==> off + i < |entries| && page[i] == entries[off + i])
      && (|page| < lim ==> off + |page| >= |entries|)
  {
  }

  /** A page as the contract defines it: from the offset on, at most the limit, by default and at most 500. */
  lemma PageMeaning(entries: seq<PendingTx>, offset: Option<nat>, limit: Option<nat>)
    requires offset.None? || offset.value < 4_294_967_296
    ensures var off := if offset.None? then 0 else offset.value;
      var page := Page(entries, offset, limit);
      && |page| <= 500 && (limit.Some? ==> |page| <= limit.value)
      && (forall i :: 0 <= i < |page| ==> off + i < |entries| && page[i] == entries[off + i])
      && (|page| < 500 && (limit.Some? ==> |page| < limit.value) ==> off + |page| >= |entries|)
  {
    var off := if offset.None? then 0 else offset.value;
    SmallOffset(off);
    SliceMeaning(entries, off, if limit.Some? && limit.value < PAGE then limit.value else PAGE);
  }

  lemma SmallOffset(off: nat)
    requires off < U32
    ensures off % U32 == off
  {
  }

  /** The n-th page the client asks for: offset and limit both grow by one page size each time. */
  function PageAt(entries: seq<PendingTx>, n: nat): seq<PendingTx> {
    Page(entries, Some(PAGE * n), Some(PAGE * (n + 1) % U32))
  }

  /** Everything from the n-th page on, up to the first empty page. */
  function FetchFrom(entries: seq<PendingTx>, n: nat): seq<PendingTx>
    decreases |entries|, MAX_PAGES - n
  {
    if n >= MAX_PAGES || PageAt(entries, n) == [] then []
    else PageAt(entries, n) + FetchFrom(entries, n + 1)
  }

  /** The entries with, or without, a threshold of votes. */
  function Select(entries: seq<PendingTx>, threshold: nat, approved: bool): seq<PendingTx> {
    if entries == [] then []
    else
      var e := entries[|entries| - 1];
      Select(entries[..|entries| - 1], threshold, approved)
        + if (|e.tx.providers| >= threshold) == approved then [e] else []
  }

  lemma {:induction false} SelectConcat(a: seq<PendingTx>, b: seq<PendingTx>, threshold: nat, approved: bool)
    ensures Select(a + b, threshold, approved) == Select(a, threshold, approved) + Select(b, threshold, approved)
    decreases |b|
  {
    if b == [] {
      assert a + b == a;
    } else {
      var n := |b| - 1;
      assert (a + b)[..|a + b| - 1] == a + b[..n];
      SelectConcat(a, b[..n], threshold, approved);
    }
  }

  lemma SelectStep(acc: seq<PendingTx>, page: seq<PendingTx>, rest: seq<PendingTx>, threshold: nat, approved: bool)
    ensures acc + Select(page + rest, threshold, approved)
         == (acc + Select(page, threshold, approved)) + Select(rest, threshold, approved)
  {
    SelectConcat(page, rest, threshold, approved);
    ConcatAssoc(acc, Select(page, threshold, approved), Select(rest, threshold, approved));
  }

  /** The 2^30-th page is asked for with a limit that has wrapped to zero, so the loop always ends. */
  lemma LastPageEmpty(entries: seq<PendingTx>, n: nat)
    requires n == MAX_PAGES - 1
    ensures PageAt(entries, n) == []
  {
    assert PAGE * (n + 1) % U32 == 0;
  }

  lemma NotLast(entries: seq<PendingTx>, n: nat)
    requires n < MAX_PAGES && PageAt(entries, n) != []
    ensures n + 1 < MAX_PAGES
    ensures FetchFrom(entries, n) == PageAt(entries, n) + FetchFrom(entries, n + 1)
  {
    if n == MAX_PAGES - 1 {
      LastPageEmpty(entries, n);
      assert false;
    }
  }

  /** The loop over one page. */
  method SplitPage(page: seq<PendingTx>, threshold: nat) returns (unapproved: seq<PendingTx>, approved: seq<PendingTx>)
    ensures unapproved == Select(page, threshold, false) && approved == Select(page, threshold, true)
  {
    unapproved, approved := [], [];
    for i := 0 to |page|
      invariant unapproved == Select(page[..i], threshold, false)
      invariant approved == Select(page[..i], threshold, true)
    {
      assert page[..i + 1][..i] == page[..i];
      if |page[i].tx.providers| < threshold {
        unapproved := unapproved + [page[i]];
      } else {
        approved := approved + [page[i]];
      }
    }
    assert page[..|page|] == page;
  }

  function NextOffset(offset: nat): nat {
    (offset + PAGE) % 0x1_0000_0000_0000_0000
  }

  function NextLimit(limit: nat): nat {
    (limit + PAGE) % U32
  }

  /** The n-th request as the loop's variables hold it. */
  ghost predicate AtPage(offset: nat, limit: nat, n: nat) {
    offset == PAGE * n && limit == PAGE * (n + 1) % U32
  }

  lemma NextRequest(offset: nat, limit: nat, n: nat)
    requires AtPage(offset, limit, n) && n < MAX_PAGES
    ensures AtPage(NextOffset(offset), NextLimit(limit), n + 1)
  {
    assert PAGE * (n + 2) == PAGE * (n + 1) + PAGE;
  }

  /** What is still to come completes the two lists. */
  ghost predicate Progress(entries: seq<PendingTx>, threshold: nat, n: nat,
                           unapproved: seq<PendingTx>, approved: seq<PendingTx>) {
    && Select(FetchFrom(entries, 0), threshold, false) == unapproved + Select(FetchFrom(entries, n), threshold, false)
    && Select(FetchFrom(entries, 0), threshold, true) == approved + Select(FetchFrom(entries, n), threshold, true)
  }

  /** State of the loop before its n-th request. */
  ghost predicate Round(entries: seq<PendingTx>, threshold: nat, n: nat, offset: nat, limit: nat,
                        unapproved: seq<PendingTx>, approved: seq<PendingTx>) {
    n < MAX_PAGES && AtPage(offset, limit, n) && Progress(entries, threshold, n, unapproved, approved)
  }

  lemma FirstRound(entries: seq<PendingTx>, threshold: nat)
    ensures Round(entries, threshold, 0, 0, PAGE, [], [])
  {
  }

  lemma Finished(entries: seq<PendingTx>, threshold: nat, n: nat, offset: nat, limit: nat,
                 unapproved: seq<PendingTx>, approved: seq<PendingTx>)
    requires Round(entries, threshold, n, offset, limit, unapproved, approved)
    requires Page(entries, Some(offset), Some(limit)) == []
    ensures unapproved == Select(FetchFrom(entries, 0), threshold, false)
    ensures approved == Select(FetchFrom(entries, 0), threshold, true)
  {
    assert PageAt(entries, n) == [];
    assert unapproved + [] == unapproved && approved + [] == approved;
  }

  lemma Advanced(entries: seq<PendingTx>, threshold: nat, n: nat, offset: nat, limit: nat,
                 unapproved: seq<PendingTx>, approved: seq<PendingTx>, page: seq<PendingTx>)
    requires Round(entries, threshold, n, offset, limit, unapproved, approved)
    requires page == Page(entries, Some(offset), Some(limit)) && page != []
    ensures Round(entries, threshold, n + 1, NextOffset(offset), NextLimit(limit),
                  unapproved + Select(page, threshold, false), approved + Select(page, threshold, true))
  {
    assert page == PageAt(entries, n);
    NotLast(entries, n);
    NextRequest(offset, limit, n);
    SelectStep(unapproved, page, FetchFrom(entries, n + 1), threshold, false);
    SelectStep(approved, page, FetchFrom(entries, n + 1), threshold, true);
  }

  /** One query and the split of its page. */
  method FetchRound(entries: seq<PendingTx>, threshold: nat, offset: nat, limit: nat)
    returns (low: seq<PendingTx>, high: seq<PendingTx>, more: bool)
    ensures var page := Page(entries, Some(offset), Some(limit));
      && (more <==> page != [])
      && low == Select(page, threshold, false) && high == Select(page, threshold, true)
  {
    var page := Page(entries, Some(offset), Some(limit));
    more := |page| != 0;
    low, high := SplitPage(page, threshold);
  }

  /** The n-th page is asked for: none before it is empty. */
  ghost predicate Asked(entries: seq<PendingTx>, n: nat) {
    forall m: nat :: m < n ==> PageAt(entries, m) != []
  }

  /** Every query up to the first empty page gets through. */
  ghost predicate AllAnswered(entries: seq<PendingTx>, queryOk: nat -> bool) {
    forall n: nat :: Asked(entries, n) ==> queryOk(n)
  }

  /** The n-th page is asked for and all queries before it got through. */
  ghost predicate Answered(entries: seq<PendingTx>, queryOk: nat -> bool, n: nat) {
    Asked(entries, n) && forall m: nat :: m < n ==> queryOk(m)
  }

  lemma AnsweredNext(entries: seq<PendingTx>, queryOk: nat -> bool, n: nat, offset: nat, limit: nat)
    requires Answered(entries, queryOk, n) && queryOk(n) && AtPage(offset, limit, n)
    requires Page(entries, Some(offset), Some(limit)) != []
    ensures Answered(entries, queryOk, n + 1)
  {
    assert PageAt(entries, n) != [];
  }

  lemma AnsweredAll(entries: seq<PendingTx>, queryOk: nat -> bool, n: nat, offset: nat, limit: nat)
    requires Answered(entries, queryOk, n) && queryOk(n) && AtPage(offset, limit, n)
    requires Page(entries, Some(offset), Some(limit)) == []
    ensures AllAnswered(entries, queryOk)
  {
    assert PageAt(entries, n) == [];
  }

  lemma NotAnswered(entries: seq<PendingTx>, queryOk: nat -> bool, n: nat)
    requires Answered(entries, queryOk, n) && !queryOk(n)
    ensures !AllAnswered(entries, queryOk)
  {
  }

  /**
   * The fetch loop, for any size of the map; `queryOk(n)` says whether the n-th page query gets
   * through. It fails exactly if one of the queries up to the first empty page does.
   */
  method GetAllPendingTransactions(entries: seq<PendingTx>, threshold: nat, queryOk: nat -> bool)
    returns (r: Result<(seq<PendingTx>, seq<PendingTx>), ()>)
    ensures r.Ok? ==>
              && r.value.0 == Select(FetchFrom(entries, 0), threshold, false)
              && r.value.1 == Select(FetchFrom(entries, 0), threshold, true)
    ensures r.Ok? <==> AllAnswered(entries, queryOk)
  {
    var offset: nat, limit: nat, n := 0, PAGE, 0;
    var unapproved: seq<PendingTx>, approved: seq<PendingTx> := [], [];
    FirstRound(entries, threshold);
    while queryOk(n)
      invariant n >= 0 && Round(entries, threshold, n, offset, limit, unapproved, approved)
      invariant Answered(entries, queryOk, n)
      decreases MAX_PAGES - n
    {
      var low, high, more := FetchRound(entries, threshold, offset, limit);
      if !more {
        Finished(entries, threshold, n, offset, limit, unapproved, approved);
        AnsweredAll(entries, queryOk, n, offset, limit);
        return Ok((unapproved, approved));
      }
      AnsweredNext(entries, queryOk, n, offset, limit);
      Advanced(entries, threshold, n, offset, limit, unapproved, approved, Page(entries, Some(offset), Some(limit)));
      unapproved, approved := unapproved + low, approved + high;
      offset, limit, n := NextOffset(offset), NextLimit(limit), n + 1;
    }
    NotAnswered(entries, queryOk, n);
    return Err(());
  }

  /** While the limit has not wrapped, a page is the next 500 entries. */
  lemma PlainPage(entries: seq<PendingTx>, n: nat)
    requires PAGE * (n + 1) <= MAX_FETCHABLE
    ensures PageAt(entries, n)
         == if PAGE * n >= |entries| then []
            else if PAGE * (n + 1) <= |entries| then entries[PAGE * n..PAGE * (n + 1)] else entries[PAGE * n..]
  {
    assert PAGE * n % U32 == PAGE * n && PAGE * (n + 1) % U32 == PAGE * (n + 1);
  }

  /** The page right at the edge is asked for with a wrapped limit, the one after it with a wrapped offset. */
  lemma EdgePages(entries: seq<PendingTx>, m: nat)
    requires m * PAGE == MAX_FETCHABLE
    ensures |entries| <= MAX_FETCHABLE ==> PageAt(entries, m) == []
    ensures |entries| > MAX_FETCHABLE ==> PageAt(entries, m) != []
    ensures |entries| > MAX_FETCHABLE ==> PageAt(entries, m + 1) != [] && PageAt(entries, m + 1)[0] == entries[204]
  {
    assert m == 8_589_934;
    assert PAGE * (m + 1) % U32 == 204 && PAGE * (m + 2) % U32 == 704;
  }

  /** So one step of the fetch takes the next 500 entries, or stops at the end of the list. */
  lemma PlainStep(entries: seq<PendingTx>, n: nat)
    requires PAGE * (n + 1) <= MAX_FETCHABLE
    ensures FetchFrom(entries, n)
         == if PAGE * n >= |entries| then []
            else (if PAGE * (n + 1) <= |entries| then entries[PAGE * n..PAGE * (n + 1)] else entries[PAGE * n..])
                 + FetchFrom(entries, n + 1)
  {
    PlainPage(entries, n);
  }

  /** Below the 32-bit edge the pages from n on are exactly the rest of the list. */
  lemma {:induction false} FetchRest(entries: seq<PendingTx>, n: nat)
    requires PAGE * n <= MAX_FETCHABLE
    requires |entries| <= MAX_FETCHABLE
    ensures FetchFrom(entries, n) == if PAGE * n >= |entries| then [] else entries[PAGE * n..]
    decreases MAX_FETCHABLE - PAGE * n
  {
    if PAGE * n == MAX_FETCHABLE {
      EdgePages(entries, n);
    } else {
      PlainStep(entries, n);
      FetchRest(entries, n + 1);
      if PAGE * (n + 1) <= |entries| {
        SliceConcat(entries, PAGE * n, PAGE * (n + 1), |entries|);
      }
    }
  }

  /** Above it the first pages are still right, up to the last whole page that fits. */
  lemma {:induction false} FetchPrefix(entries: seq<PendingTx>, n: nat, m: nat)
    requires PAGE * n <= PAGE * m == MAX_FETCHABLE < |entries|
    ensures FetchFrom(entries, n) == entries[PAGE * n..MAX_FETCHABLE] + FetchFrom(entries, m)
    decreases MAX_FETCHABLE - PAGE * n
  {
    if n == m {
      assert entries[PAGE * n..MAX_FETCHABLE] == [];
    } else {
      PlainStep(entries, n);
      FetchPrefix(entries, n + 1, m);
      SliceConcat(entries, PAGE * n, PAGE * (n + 1), MAX_FETCHABLE);
      ConcatAssoc(entries[PAGE * n..PAGE * (n + 1)], entries[PAGE * (n + 1)..MAX_FETCHABLE], FetchFrom(entries, m));
    }
  }

  /** Past the edge the limit has wrapped to 204 and the next offset starts again at entry 204. */
  lemma FetchWraps(entries: seq<PendingTx>, m: nat)
    requires |entries| > MAX_FETCHABLE == m * PAGE
    ensures exists i, j :: 0 <= i < j < |FetchFrom(entries, 0)|
                           && FetchFrom(entries, 0)[i] == entries[204] == FetchFrom(entries, 0)[j]
  {
    FetchPrefix(entries, 0, m);
    EdgePages(entries, m);
    var all := FetchFrom(entries, 0);
    var p, q := PageAt(entries, m), PageAt(entries, m + 1);
    var tail := FetchFrom(entries, m + 1);
    assert FetchFrom(entries, m) == p + tail && tail[0] == q[0];
    var prefix := entries[0..MAX_FETCHABLE];
    assert all == prefix + (p + tail);
    assert all[204] == entries[204];
    assert all[|prefix| + |p|] == tail[0];
  }

  /** The fetched list is the map's listing, each entry once, exactly up to the 32-bit edge. */
  lemma FetchAllIffFits(entries: seq<PendingTx>, pending: map<string, Transaction>)
    requires IsListing(entries, pending)
    ensures IsListing(FetchFrom(entries, 0), pending) <==> |entries| <= MAX_FETCHABLE
    ensures |entries| <= MAX_FETCHABLE ==> FetchFrom(entries, 0) == entries
  {
    if |entries| <= MAX_FETCHABLE {
      FetchRest(entries, 0);
    } else {
      FetchWraps(entries, MAX_FETCHABLE / PAGE);
    }
  }

  /** Selecting keeps exactly the entries on the asked side of the threshold. */
  lemma {:induction false} SelectMeaning(entries: seq<PendingTx>, threshold: nat, approved: bool)
    requires forall i, j :: 0 <= i < j < |entries| ==> entries[i].key != entries[j].key
    ensures var s := Select(entries, threshold, approved);
      && (forall i, j :: 0 <= i < j < |s| ==> s[i].key != s[j].key)
      && (forall e :: e in s <==> e in entries && (|e.tx.providers| >= threshold) == approved)
  {
    if entries != [] {
      var n := |entries| - 1;
      SelectMeaning(entries[..n], threshold, approved);
      var s := Select(entries[..n], threshold, approved);
      forall e | e in s ensures e.key != entries[n].key {
        var i :| 0 <= i < n && entries[..n][i] == e;
        assert entries[i].key != entries[n].key;
      }
    }
  }

  // ---------- batch of manual executions ----------

  /** Zero coins are dropped from the attached funds. */
  function NewCoins(coin: Coin): seq<Coin> {
    if coin.amount == 0 then [] else [coin]
  }

  function ExecuteMessage(sender: string, e: PendingTx): Step {
    Call(sender, NewCoins(e.tx.amount), true, ExecutePending(e.key))
  }

  function Messages(sender: string, entries: seq<PendingTx>): seq<Step> {
    seq(|entries|, i requires 0 <= i < |entries| => ExecuteMessage(sender, entries[i]))
  }

  predicate Named(entries: seq<PendingTx>, key: string) {
    exists e :: e in entries && e.key == key
  }

  /** The entries asked for, in listing order, each id once; an empty request asks for all entries. */
  function Wanted(approved: seq<PendingTx>, requested: set<string>): seq<PendingTx> {
    if requested == {} || approved == [] then approved
    else
      var e, before := approved[|approved| - 1], approved[..|approved| - 1];
      Wanted(before, requested) + if e.key in requested && !Named(before, e.key) then [e] else []
  }

  /** Builds the messages, or reports the requested ids that are not approved. */
  method BuildExecutePendingMessages(sender: string, approved: seq<PendingTx>, requested: seq<string>)
    returns (r: Result<seq<Step>, set<string>>)
    ensures r.Err? <==> exists id :: id in requested && !Named(approved, id)
    ensures r.Err? ==> r.error == set id | id in requested && !Named(approved, id)
    ensures r.Ok? ==> r.value == Messages(sender, Wanted(approved, set id | id in requested))
  {
    var ids := set id | id in requested;
    ghost var asked := ids;
    var includeAll := ids == {};
    var msgs: seq<Step> := [];
    for i := 0 to |approved|
      invariant ids <= asked
      invariant includeAll <==> asked == {}
      invariant msgs == Messages(sender, Wanted(approved[..i], asked))
      invariant forall id :: id in ids <==> id in asked && !Named(approved[..i], id)
    {
      WantedStep(sender, approved, i, asked);
      NamedStep(approved, i);
      if includeAll || approved[i].key in ids {
        msgs := msgs + [ExecuteMessage(sender, approved[i])];
      }
      ids := ids - {approved[i].key};
    }
    assert approved[..|approved|] == approved;
    if ids != {} {
      var id :| id in ids;
      return Err(ids);
    }
    return Ok(msgs);
  }

  lemma NamedStep(approved: seq<PendingTx>, i: nat)
    requires i < |approved|
    ensures forall id :: Named(approved[..i + 1], id) <==> Named(approved[..i], id) || approved[i].key == id
  {
    assert approved[..i + 1] == approved[..i] + [approved[i]];
    assert approved[i] in approved[..i + 1];
    forall id | Named(approved[..i], id) ensures Named(approved[..i + 1], id) {
      var e :| e in approved[..i] && e.key == id;
      assert e in approved[..i + 1];
    }
  }

  lemma WantedStep(sender: string, approved: seq<PendingTx>, i: nat, asked: set<string>)
    requires i < |approved|
    ensures Messages(sender, Wanted(approved[..i + 1], asked))
         == Messages(sender, Wanted(approved[..i], asked))
            + if asked == {} || (approved[i].key in asked && !Named(approved[..i], approved[i].key))
              then [ExecuteMessage(sender, approved[i])] else []
  {
    assert approved[..i + 1][..i] == approved[..i];
    assert asked == {} ==> approved[..i + 1] == approved[..i] + [approved[i]];
  }

  /** The wanted entries are the requested ones, each once. */
  lemma {:induction false} WantedMeaning(approved: seq<PendingTx>, requested: set<string>)
    requires forall i, j :: 0 <= i < j < |approved| ==> approved[i].key != approved[j].key
    ensures var s := Wanted(approved, requested);
      && (forall i, j :: 0 <= i < j < |s| ==> s[i].key != s[j].key)
      && (forall e :: e in s <==> e in approved && (requested == {} || e.key in requested))
  {
    if requested != {} && approved != [] {
      var n := |approved| - 1;
      WantedMeaning(approved[..n], requested);
      forall e | e in Wanted(approved[..n], requested) ensures e.key != approved[n].key {
        var i :| 0 <= i < n && approved[..n][i] == e;
        assert approved[i].key != approved[n].key;
      }
    }
  }

  ghost predicate AllSucceed(api: Api, w: World, steps: seq<Step>)
    decreases |steps|
  {
    steps == [] || (Apply(api, w, steps[0]).Ok? && AllSucceed(api, Next(api, w, steps[0]), steps[1..]))
  }

  /** The entry is stored as listed and has its votes. */
  ghost predicate Executable(s: State, e: PendingTx) {
    && e.key in s.pending && s.pending[e.key] == e.tx
    && |e.tx.providers| >= s.config.threshold
  }

  /** A zero coin is dropped from the funds, so the message fails; any other entry is paid with the coin it brings. */
  lemma ExecutesOne(api: Api, w: World, sender: string, e: PendingTx)
    requires Executable(w.st, e)
    ensures Apply(api, w, ExecuteMessage(sender, e)).Ok? <==> e.tx.amount.amount > 0
    ensures e.tx.amount.amount > 0 ==>
      var w' := Next(api, w, ExecuteMessage(sender, e));
      && w'.st.pending == w.st.pending - {e.key} && w'.st.config == w.st.config
      && forall d :: Balance(w'.balance, d) == Balance(w.balance, d) + SelfPaid(api, [e], d)
  {
    var coin, c := e.tx.amount, ExecuteMessage(sender, e);
    if coin.amount > 0 {
      assert [coin][..0] == [];
      assert CreditAll(w.balance, [coin]) == Credit(w.balance, coin);
      assert c.funds == [coin];
      forall d ensures Balance(Next(api, w, c).balance, d) == Balance(w.balance, d) + SelfPaid(api, [e], d) {
        ManualPaymentNeutral(api, w, c, d);
        assert [e][1..] == [];
      }
    }
  }

  /** What the entries that pay the contract itself leave with it. */
  ghost function SelfPaid(api: Api, entries: seq<PendingTx>, denom: string): nat {
    if entries == [] then 0
    else (if entries[0].tx.recipient == api.self then In(entries[0].tx.amount, denom) else 0) + SelfPaid(api, entries[1..], denom)
  }

  lemma {:induction false} NoneSelfPaid(api: Api, entries: seq<PendingTx>, denom: string)
    requires forall e :: e in entries ==> e.tx.recipient != api.self
    ensures SelfPaid(api, entries, denom) == 0
  {
    if entries != [] {
      assert entries[0] in entries && forall e :: e in entries[1..] ==> e in entries;
      NoneSelfPaid(api, entries[1..], denom);
    }
  }

  ghost function KeysOf(entries: seq<PendingTx>): set<string> {
    set e | e in entries :: e.key
  }

  lemma KeysOfCons(entries: seq<PendingTx>)
    requires entries != []
    ensures KeysOf(entries) == {entries[0].key} + KeysOf(entries[1..])
  {
    assert entries == [entries[0]] + entries[1..];
  }

  lemma RemoveTwice(m: map<string, Transaction>, k: string, ks: set<string>)
    ensures m - ({k} + ks) == (m - {k}) - ks
  {
  }

  /** A batch as it is built: distinct keys, all executable. */
  ghost predicate Runnable(s: State, entries: seq<PendingTx>) {
    && (forall i, j :: 0 <= i < j < |entries| ==> entries[i].key != entries[j].key)
    && (forall e :: e in entries ==> Executable(s, e))
  }

  lemma RunnableRest(s: State, s': State, entries: seq<PendingTx>)
    requires Runnable(s, entries) && entries != []
    requires s'.pending == s.pending - {entries[0].key} && s'.config == s.config
    ensures Runnable(s', entries[1..])
  {
    forall e | e in entries[1..] ensures Executable(s', e) {
      var i :| 1 <= i < |entries| && entries[i] == e;
      assert e in entries && entries[0].key != e.key;
    }
  }

  ghost predicate AllPositive(entries: seq<PendingTx>) {
    forall e :: e in entries ==> e.tx.amount.amount > 0
  }

  lemma AllPositiveCons(entries: seq<PendingTx>)
    requires entries != []
    ensures AllPositive(entries) <==> entries[0].tx.amount.amount > 0 && AllPositive(entries[1..])
  {
    assert entries == [entries[0]] + entries[1..];
  }

  /**
   * Run in order, every message of the batch succeeds exactly if all amounts are positive; then the
   * entries go, and the balance grows only by what entries pay to the contract itself.
   */
  lemma {:induction false} BatchExecutes(api: Api, w: World, sender: string, entries: seq<PendingTx>)
    requires Runnable(w.st, entries)
    ensures AllSucceed(api, w, Messages(sender, entries)) <==> AllPositive(entries)
    ensures AllPositive(entries) ==>
      var w' := Run(api, w, Messages(sender, entries));
      && w'.st.pending == w.st.pending - KeysOf(entries)
      && forall d :: Balance(w'.balance, d) == Balance(w.balance, d) + SelfPaid(api, entries, d)
    decreases |entries|
  {
    var steps := Messages(sender, entries);
    if entries == [] {
      assert w.st.pending - {} == w.st.pending;
    } else {
      var first, rest := entries[0], entries[1..];
      AllPositiveCons(entries);
      ExecutesOne(api, w, sender, first);
      if first.tx.amount.amount > 0 {
        var w1 := Next(api, w, steps[0]);
        assert steps[1..] == Messages(sender, rest);
        RunnableRest(w.st, w1.st, entries);
        BatchExecutes(api, w1, sender, rest);
        KeysOfCons(entries);
        RemoveTwice(w.st.pending, first.key, KeysOf(rest));
        forall d ensures SelfPaid(api, entries, d) == SelfPaid(api, [first], d) + SelfPaid(api, rest, d) {
          assert [first][1..] == [];
        }
      }
    }
  }

  /** The entry of this key is approved and asked for. */
  ghost predicate Requested(s: State, requested: set<string>, k: string) {
    k in s.pending && |s.pending[k].providers| >= s.config.threshold && (requested == {} || k in requested)
  }

  /** The batch built from a fetched snapshot is the requested entries, each once, as they are stored. */
  lemma SnapshotSelects(s: State, entries: seq<PendingTx>, requested: set<string>)
    requires IsListing(entries, s.pending) && |entries| <= MAX_FETCHABLE
    ensures var batch := Wanted(Select(FetchFrom(entries, 0), s.config.threshold, true), requested);
      && Runnable(s, batch)
      && forall k :: (exists e :: e in batch && e.key == k) <==> Requested(s, requested, k)
  {
    var t := s.config.threshold;
    FetchAllIffFits(entries, s.pending);
    SelectMeaning(entries, t, true);
    var approved := Select(entries, t, true);
    WantedMeaning(approved, requested);
    var batch := Wanted(approved, requested);
    forall e | e in batch ensures Executable(s, e) && Requested(s, requested, e.key) {
      var i :| 0 <= i < |entries| && entries[i] == e;
    }
    forall k | Requested(s, requested, k) ensures exists e :: e in batch && e.key == k {
      var e := PendingTx(k, s.pending[k]);
      assert e in entries && e in approved && e in batch;
    }
  }

  /**
   * From the fetched snapshot to the executed batch: it succeeds exactly if the requested entries
   * have positive amounts, and leaves the balance as it was unless one pays the contract itself.
   */
  lemma SnapshotBatch(api: Api, w: World, sender: string, entries: seq<PendingTx>, requested: set<string>)
    requires IsListing(entries, w.st.pending) && |entries| <= MAX_FETCHABLE
    ensures var batch := Wanted(Select(FetchFrom(entries, 0), w.st.config.threshold, true), requested);
      var w' := Run(api, w, Messages(sender, batch));
      && (AllSucceed(api, w, Messages(sender, batch))
          <==> forall k :: Requested(w.st, requested, k) ==> w.st.pending[k].amount.amount > 0)
      && (AllSucceed(api, w, Messages(sender, batch)) ==>
            (forall k :: k in w'.st.pending <==> k in w.st.pending && !Requested(w.st, requested, k)))
      && (AllSucceed(api, w, Messages(sender, batch)) && (forall e :: e in batch ==> e.tx.recipient != api.self) ==>
            (forall d :: Balance(w'.balance, d) == Balance(w.balance, d)))
  {
    var batch := Wanted(Select(FetchFrom(entries, 0), w.st.config.threshold, true), requested);
    SnapshotSelects(w.st, entries, requested);
    BatchExecutes(api, w, sender, batch);
    PositiveKeys(w.st, batch, requested);
    BatchKeys(w.st, batch, requested);
    if forall e :: e in batch ==> e.tx.recipient != api.self {
      forall d ensures SelfPaid(api, batch, d) == 0 {
        NoneSelfPaid(api, batch, d);
      }
    }
  }

  lemma PositiveKeys(s: State, batch: seq<PendingTx>, requested: set<string>)
    requires Runnable(s, batch) && forall k :: (exists e :: e in batch && e.key == k) <==> Requested(s, requested, k)
    ensures AllPositive(batch) <==> forall k :: Requested(s, requested, k) ==> s.pending[k].amount.amount > 0
  {
    forall e | e in batch ensures Requested(s, requested, e.key) && s.pending[e.key] == e.tx {
      assert Executable(s, e);
    }
  }

  lemma BatchKeys(s: State, batch: seq<PendingTx>, requested: set<string>)
    requires forall k :: (exists e :: e in batch && e.key == k) <==> Requested(s, requested, k)
    ensures forall k :: k in s.pending - KeysOf(batch) <==> k in s.pending && !Requested(s, requested, k)
  {
    assert forall k :: k in KeysOf(batch) <==> exists e :: e in batch && e.key == k;
  }
}
