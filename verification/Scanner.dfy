/**
 * The XRPL scanner: forward pagination over an account's transactions, resume cursors, and
 * retries after any failure. The server is assumed to list validated transactions in ledger
 * order and to continue exactly at its marker; everything else it does is arbitrary.
 */
module Scanner {
  import opened Prelude
  import opened Finder

  /** A listed transaction; `hexOk` says whether its memos decode. */
  datatype Item = Item(tx: XrplTx, hexOk: bool)

  /** The server's marker; `End` is the all-zero one. */
  datatype Marker = End | At(position: nat)

  /**
   * How one request turns out: a failed call, or a page of up to `size + 1` items. A page that
   * exhausts the list may still carry a marker (`lingering`), and the context may be cancelled
   * before item `cancelAt` of the page is handed over.
   */
  datatype Reply = Failure | Page(size: nat, lingering: bool, cancelAt: Option<nat>)

  datatype Verdict = Fine | Failed | Cancelled

  /** The receiving end, where items are handed over one by one. */
  class Channel {
    var delivered: seq<XrplTx>

    constructor ()
      ensures delivered == []
    {
      delivered := [];
    }

    method Send(tx: XrplTx)
      modifies this
      ensures delivered == old(delivered) + [tx]
    {
      delivered := delivered + [tx];
    }
  }

  ghost predicate Ordered(items: seq<Item>) {
    && (forall i :: 0 <= i < |items| ==> items[i].tx.ledger >= 1)
    && (forall i, j :: 0 <= i < j < |items| ==> items[i].tx.ledger <= items[j].tx.ledger)
  }

  /** The part of the history with ledgers from `lo` to `hi`. */
  function InRange(history: seq<Item>, lo: int, hi: int): seq<Item> {
    if history == [] then []
    else
      var e := history[|history| - 1];
      InRange(history[..|history| - 1], lo, hi) + if lo <= e.tx.ledger <= hi then [e] else []
  }

  lemma {:induction false} InRangeMembers(history: seq<Item>, lo: int, hi: int)
    ensures forall e :: e in InRange(history, lo, hi) <==> e in history && lo <= e.tx.ledger <= hi
  {
    if history != [] {
      var n := |history| - 1;
      InRangeMembers(history[..n], lo, hi);
      assert history == history[..n] + [history[n]];
    }
  }

  lemma AppendOrdered(items: seq<Item>, e: Item)
    requires Ordered(items) && e.tx.ledger >= 1 && forall x :: x in items ==> x.tx.ledger <= e.tx.ledger
    ensures Ordered(items + [e])
  {
  }

  lemma {:induction false} InRangeOrdered(history: seq<Item>, lo: int, hi: int)
    requires Ordered(history)
    ensures Ordered(InRange(history, lo, hi))
  {
    if history != [] {
      var n := |history| - 1;
      var rest := InRange(history[..n], lo, hi);
      InRangeOrdered(history[..n], lo, hi);
      InRangeMembers(history[..n], lo, hi);
      forall e | e in rest ensures e.tx.ledger <= history[n].tx.ledger {
        var i :| 0 <= i < n && history[..n][i] == e;
        assert history[i].tx.ledger <= history[n].tx.ledger;
      }
      AppendOrdered(rest, history[n]);
      assert InRange(history, lo, hi) == rest || InRange(history, lo, hi) == rest + [history[n]];
    }
  }

  /** What the server lists: exactly the items in range, in ledger order. */
  lemma InRangeMeaning(history: seq<Item>, lo: int, hi: int)
    requires Ordered(history)
    ensures Ordered(InRange(history, lo, hi))
    ensures forall e :: e in InRange(history, lo, hi) <==> e in history && lo <= e.tx.ledger <= hi
  {
    InRangeMembers(history, lo, hi);
    InRangeOrdered(history, lo, hi);
  }

  function Bound(ledger: int): int {
    if ledger <= 0 then -1 else ledger
  }

  /** What the server lists for the bounds as sent: -1 stands for the earliest and for the latest ledger. */
  function Listed(history: seq<Item>, startLedger: int, endLedger: int, tip: int): seq<Item> {
    InRange(history, Bound(startLedger), if Bound(endLedger) == -1 then tip else endLedger)
  }

  /** Every item of ledgers `from` to `upTo` has been handed over. */
  ghost predicate Covered(delivered: seq<XrplTx>, history: seq<Item>, from: int, upTo: int) {
    forall e :: e in history && from <= e.tx.ledger <= upTo ==> e.tx in delivered
  }

  /** The first `k` listed items have been handed over. */
  ghost predicate HandedOver(delivered: seq<XrplTx>, listed: seq<Item>, k: nat)
    requires k <= |listed|
  {
    forall i :: 0 <= i < k ==> listed[i].tx in delivered
  }

  /** Nothing below the cursor is left among the items still to come. */
  ghost predicate CursorBehind(listed: seq<Item>, k: nat, cursor: int)
    requires k <= |listed|
  {
    forall i :: k <= i < |listed| ==> cursor < listed[i].tx.ledger
  }

  ghost predicate OneBelow(listed: seq<Item>, index: int) {
    exists e :: e in listed && index == e.tx.ledger - 1
  }

  predicate FromItems(items: seq<Item>, tx: XrplTx) {
    exists e :: e in items && e.tx == tx
  }

  /** What was handed over since `before` are listed transactions, nothing else. */
  ghost predicate OnlyFrom(items: seq<Item>, before: seq<XrplTx>, delivered: seq<XrplTx>) {
    forall tx :: tx in delivered ==> tx in before || FromItems(items, tx)
  }

  lemma OnlyFromWider(items: seq<Item>, history: seq<Item>, before: seq<XrplTx>, mid: seq<XrplTx>, delivered: seq<XrplTx>)
    requires OnlyFrom(history, before, mid) && OnlyFrom(items, mid, delivered)
    requires forall e :: e in items ==> e in history
    ensures OnlyFrom(history, before, delivered)
  {
    forall tx | tx in delivered ensures tx in before || FromItems(history, tx) {
      if FromItems(items, tx) {
        var e :| e in items && e.tx == tx;
        assert e in history;
      }
    }
  }

  ghost predicate Undisturbed(reply: Reply) {
    reply.Page? && reply.cancelAt.None?
  }

  /** The context is cancelled while this page is handed over. */
  ghost predicate Cancels(reply: Reply) {
    reply.Page? && reply.cancelAt.Some?
  }

  ghost predicate Decodable(items: seq<Item>) {
    forall e :: e in items ==> e.hexOk
  }

  function Txs(items: seq<Item>): seq<XrplTx> {
    seq(|items|, i requires 0 <= i < |items| => items[i].tx)
  }

  lemma TxsConcat(items: seq<Item>, i: nat, j: nat)
    requires i <= j <= |items|
    ensures Txs(items[..i]) + Txs(items[i..j]) == Txs(items[..j])
  {
  }

  /** Where the page ends that starts at `position`. */
  function PageEnd(listed: seq<Item>, position: nat, size: nat): nat {
    if position + size + 1 <= |listed| then position + size + 1 else |listed|
  }

  /** One below the last of the items from `position` to `k`, or below the start if there is none. */
  function IndexAfter(listed: seq<Item>, start: int, position: nat, k: nat): int
    requires position <= k <= |listed|
  {
    if k > position then listed[k - 1].tx.ledger - 1 else start - 1
  }

  /**
   * One page: items `position` to `k` are handed over. The index returned is one below the ledger of
   * the last item looked at, which on a decoding failure is the one that was not handed over.
   */
  method GetAccountTransactions(listed: seq<Item>, startLedger: int, position: nat, reply: Reply, ch: Channel)
    returns (marker: Marker, latest: int, verdict: Verdict, ghost k: nat)
    requires Ordered(listed) && position <= |listed|
    requires forall e :: e in listed ==> Bound(startLedger) <= e.tx.ledger
    modifies ch
    ensures position <= k <= |listed| && ch.delivered == old(ch.delivered) + Txs(listed[position..k])
    ensures verdict == Fine ==>
              && reply.Page? && k == PageEnd(listed, position, reply.size)
              && latest == IndexAfter(listed, Bound(startLedger), position, k)
              && match marker
                 case End => k == |listed|
                 case At(p) => p == k > position
    ensures verdict == Failed ==>
              if reply.Failure? then k == position && latest == Bound(startLedger) - 1
              else k < |listed| && !listed[k].hexOk && latest == listed[k].tx.ledger - 1
    ensures verdict == Cancelled ==> latest == 0 && Cancels(reply) && reply.cancelAt == Some(k - position)
    ensures Undisturbed(reply) && Decodable(listed) ==> verdict == Fine
  {
    var start := Bound(startLedger);
    k := position;
    assert listed[position..position] == [];
    if reply.Failure? {
      return End, start - 1, Failed, k;
    }
    latest := start;
    var stop := if position + reply.size + 1 <= |listed| then position + reply.size + 1 else |listed|;
    var i := position;
    while i < stop
      invariant position <= i == k <= stop && ch.delivered == old(ch.delivered) + Txs(listed[position..i])
      invariant latest - 1 == IndexAfter(listed, start, position, i)
    {
      latest := listed[i].tx.ledger;
      if !listed[i].hexOk {
        return End, latest - 1, Failed, k;
      }
      if reply.cancelAt == Some(i - position) {
        return End, 0, Cancelled, k;
      }
      ch.Send(listed[i].tx);
      assert Txs(listed[position..i + 1]) == Txs(listed[position..i]) + [listed[i].tx];
      i := i + 1;
      k := i;
    }
    marker := if stop < |listed| || (reply.lingering && stop > position) then At(stop) else End;
    return marker, latest - 1, Fine, k;
  }

  /** The ledgers of what was handed over from position `from` on never go down. */
  ghost predicate Ascending(delivered: seq<XrplTx>, from: nat) {
    forall i, j :: from <= i < j < |delivered| ==> delivered[i].ledger <= delivered[j].ledger
  }

  /** Resuming past the cursor goes back to no ledger below one handed over from position `from` on. */
  ghost predicate PastHandedOver(delivered: seq<XrplTx>, from: nat, cursor: int) {
    forall i :: from <= i < |delivered| ==> delivered[i].ledger - 1 <= cursor
  }

  /** What was handed over from position `from` on lies in the ledgers asked for; an end of zero or less asks for all. */
  ghost predicate AskedFor(delivered: seq<XrplTx>, from: nat, startLedger: int, endLedger: int) {
    forall i :: from <= i < |delivered| ==>
      startLedger <= delivered[i].ledger && (endLedger <= 0 || delivered[i].ledger <= endLedger)
  }

  /** All pages from the start; returns the resume cursor. */
  method SubscribeAccountTransactions(history: seq<Item>, startLedger: int, endLedger: int, tip: int,
                                      replies: nat -> Reply, ch: Channel)
    returns (cursor: int, verdict: Verdict)
    requires Ordered(history)
    modifies ch
    ensures old(ch.delivered) <= ch.delivered && OnlyFrom(history, old(ch.delivered), ch.delivered)
    ensures Ascending(ch.delivered, |old(ch.delivered)|)
    ensures AskedFor(ch.delivered, |old(ch.delivered)|, startLedger, endLedger)
    ensures Covered(ch.delivered, history, startLedger, cursor)
    ensures verdict == Fine ==> ch.delivered == old(ch.delivered) + Txs(Listed(history, startLedger, endLedger, tip))
    ensures cursor >= 0 && (verdict != Cancelled ==> cursor >= startLedger - 1)
    ensures verdict != Cancelled ==> PastHandedOver(ch.delivered, |old(ch.delivered)|, cursor)
    ensures (forall n :: Undisturbed(replies(n))) && Decodable(history) ==> verdict == Fine
    ensures (forall n :: !Cancels(replies(n))) ==> verdict != Cancelled
  {
    ghost var hi := if Bound(endLedger) == -1 then tip else endLedger;
    var listed := Listed(history, startLedger, endLedger, tip);
    InRangeMeaning(history, Bound(startLedger), hi);
    var position, requests := 0, 0;
    cursor := 0;
    assert Txs(listed[..0]) == [];
    while true
      invariant position >= 0 && requests >= 0
      invariant Scanning(listed, old(ch.delivered), ch.delivered, position, startLedger, hi, cursor, Fine)
      decreases |listed| - position
    {
      ghost var before, mid := cursor, ch.delivered;
      var marker, latest, verdict', k := GetAccountTransactions(listed, startLedger, position, replies(requests), ch);
      if latest > cursor {
        cursor := latest;
      }
      PageDone(listed, old(ch.delivered), mid, ch.delivered, startLedger, hi, position, k, before, latest, verdict', replies(requests));
      if verdict' != Fine || marker == End {
        ScanEnds(old(ch.delivered), ch.delivered, history, listed, k, startLedger, endLedger, hi, cursor, verdict');
        assert verdict' == Fine ==> listed[..k] == listed;
        return cursor, verdict';
      }
      position := marker.position;
      requests := requests + 1;
    }
  }

  /** The index of a page has passed only items handed over, and does reach the last of them. */
  lemma PageCursor(listed: seq<Item>, startLedger: int, position: nat, k: nat, latest: int, verdict: Verdict, reply: Reply)
    requires Ordered(listed) && position <= k <= |listed|
    requires forall e :: e in listed ==> Bound(startLedger) <= e.tx.ledger
    requires verdict == Fine ==> latest == IndexAfter(listed, Bound(startLedger), position, k)
    requires verdict == Failed ==>
               if reply.Failure? then k == position && latest == Bound(startLedger) - 1
               else k < |listed| && latest == listed[k].tx.ledger - 1
    ensures verdict != Cancelled ==> latest >= Bound(startLedger) - 1 && CursorBehind(listed, k, latest)
    ensures verdict != Cancelled ==> latest == Bound(startLedger) - 1 || OneBelow(listed, latest)
    ensures verdict != Cancelled && k > position ==> latest >= listed[k - 1].tx.ledger - 1
  {
  }

  /** The first `k` items are handed over, and the cursor has passed only these, and all but the last ledger of them. */
  ghost predicate Scanning(listed: seq<Item>, before: seq<XrplTx>, delivered: seq<XrplTx>, k: nat,
                           startLedger: int, hi: int, cursor: int, verdict: Verdict) {
    && k <= |listed| && delivered == before + Txs(listed[..k])
    && cursor >= 0 && CursorWithin(listed, k, startLedger, hi, cursor)
    && (verdict != Cancelled && k > 0 ==> cursor >= listed[k - 1].tx.ledger - 1)
  }

  lemma PageDone(listed: seq<Item>, before: seq<XrplTx>, mid: seq<XrplTx>, delivered: seq<XrplTx>, startLedger: int, hi: int,
                 position: nat, k: nat, cursor: int, latest: int, verdict: Verdict, reply: Reply)
    requires Ordered(listed) && position <= k <= |listed|
    requires forall e :: e in listed ==> Bound(startLedger) <= e.tx.ledger <= hi
    requires Scanning(listed, before, mid, position, startLedger, hi, cursor, Fine)
    requires delivered == mid + Txs(listed[position..k])
    requires verdict == Fine ==> latest == IndexAfter(listed, Bound(startLedger), position, k)
    requires verdict == Failed ==>
               if reply.Failure? then k == position && latest == Bound(startLedger) - 1
               else k < |listed| && latest == listed[k].tx.ledger - 1
    requires verdict == Cancelled ==> latest == 0
    ensures Scanning(listed, before, delivered, k, startLedger, hi, if latest > cursor then latest else cursor, verdict)
    ensures verdict != Cancelled ==> latest >= Bound(startLedger) - 1
  {
    TxsConcat(listed, position, k);
    ConcatAssoc(before, Txs(listed[..position]), Txs(listed[position..k]));
    PageCursor(listed, startLedger, position, k, latest, verdict, reply);
    CursorStep(listed, position, k, startLedger, hi, cursor, latest, verdict);
  }

  /** What the end of a scan means for the history. */
  lemma ScanEnds(before: seq<XrplTx>, delivered: seq<XrplTx>, history: seq<Item>, listed: seq<Item>, k: nat,
                 startLedger: int, endLedger: int, hi: int, cursor: int, verdict: Verdict)
    requires Ordered(history) && Ordered(listed)
    requires forall e :: e in listed <==> e in history && Bound(startLedger) <= e.tx.ledger <= hi
    requires hi == endLedger || Bound(endLedger) == -1
    requires Scanning(listed, before, delivered, k, startLedger, hi, cursor, verdict)
    ensures before <= delivered && OnlyFrom(history, before, delivered)
    ensures Ascending(delivered, |before|) && AskedFor(delivered, |before|, startLedger, endLedger)
    ensures Covered(delivered, history, startLedger, cursor)
    ensures verdict != Cancelled ==> PastHandedOver(delivered, |before|, cursor)
  {
    NewItems(before, delivered, listed, k);
    NewOnlyFrom(before, delivered, history, listed, k);
    NewInOrder(before, delivered, listed, k, startLedger, endLedger, hi, cursor, verdict);
    WithinCovers(delivered, history, listed, k, startLedger, hi, cursor);
  }

  lemma NewItems(before: seq<XrplTx>, delivered: seq<XrplTx>, listed: seq<Item>, k: nat)
    requires k <= |listed| && delivered == before + Txs(listed[..k])
    ensures |delivered| == |before| + k && HandedOver(delivered, listed, k)
    ensures forall i :: |before| <= i < |delivered| ==> delivered[i] == listed[i - |before|].tx
  {
    assert forall i :: 0 <= i < k ==> delivered[|before| + i] == listed[i].tx;
  }

  lemma NewInOrder(before: seq<XrplTx>, delivered: seq<XrplTx>, listed: seq<Item>, k: nat,
                   startLedger: int, endLedger: int, hi: int, cursor: int, verdict: Verdict)
    requires Ordered(listed) && k <= |listed| && |delivered| == |before| + k
    requires forall i :: |before| <= i < |delivered| ==> delivered[i] == listed[i - |before|].tx
    requires forall e :: e in listed ==> Bound(startLedger) <= e.tx.ledger <= hi
    requires hi == endLedger || Bound(endLedger) == -1
    requires verdict != Cancelled && k > 0 ==> cursor >= listed[k - 1].tx.ledger - 1
    ensures Ascending(delivered, |before|) && AskedFor(delivered, |before|, startLedger, endLedger)
    ensures verdict != Cancelled ==> PastHandedOver(delivered, |before|, cursor)
  {
    forall i | |before| <= i < |delivered|
      ensures startLedger <= delivered[i].ledger && (endLedger <= 0 || delivered[i].ledger <= endLedger)
      ensures verdict != Cancelled ==> delivered[i].ledger - 1 <= cursor
    {
      var n := i - |before|;
      assert listed[n] in listed && listed[n].tx.ledger <= listed[k - 1].tx.ledger;
    }
  }

  lemma NewOnlyFrom(before: seq<XrplTx>, delivered: seq<XrplTx>, history: seq<Item>, listed: seq<Item>, k: nat)
    requires k <= |listed| && delivered == before + Txs(listed[..k]) && forall e :: e in listed ==> e in history
    ensures OnlyFrom(history, before, delivered)
  {
    forall tx | tx in delivered ensures tx in before || FromItems(history, tx) {
      if tx !in before {
        var i :| 0 <= i < k && Txs(listed[..k])[i] == tx;
        assert listed[i] in listed;
      }
    }
  }

  /** A cursor that has passed only items handed over, and does not reach beyond the listed range. */
  ghost predicate CursorWithin(listed: seq<Item>, k: nat, startLedger: int, hi: int, cursor: int)
    requires k <= |listed|
  {
    && CursorBehind(listed, k, cursor)
    && (cursor < 1 || cursor < startLedger || cursor < hi)
  }

  lemma CursorStep(listed: seq<Item>, position: nat, k: nat, startLedger: int, hi: int,
                   before: int, latest: int, verdict: Verdict)
    requires position <= k <= |listed| && before >= 0
    requires CursorWithin(listed, position, startLedger, hi, before)
    requires verdict == Cancelled ==> latest == 0
    requires verdict != Cancelled ==> CursorBehind(listed, k, latest)
    requires verdict != Cancelled ==> latest == Bound(startLedger) - 1 || OneBelow(listed, latest)
    requires forall e :: e in listed ==> e.tx.ledger <= hi
    ensures CursorWithin(listed, k, startLedger, hi, if latest > before then latest else before)
  {
  }

  lemma WithinCovers(delivered: seq<XrplTx>, history: seq<Item>, listed: seq<Item>, k: nat,
                     startLedger: int, hi: int, cursor: int)
    requires k <= |listed| && HandedOver(delivered, listed, k)
    requires CursorWithin(listed, k, startLedger, hi, cursor)
    requires Ordered(history)
    requires forall e :: e in listed <==> e in history && Bound(startLedger) <= e.tx.ledger <= hi
    ensures Covered(delivered, history, startLedger, cursor)
  {
    forall e | e in history && startLedger <= e.tx.ledger <= cursor ensures e.tx in delivered {
      var j :| 0 <= j < |history| && history[j] == e;
      assert e in listed;
      var i :| 0 <= i < |listed| && listed[i] == e;
    }
  }

  lemma CoveredGrows(delivered: seq<XrplTx>, more: seq<XrplTx>, history: seq<Item>, from: int, upTo: int)
    requires Covered(delivered, history, from, upTo) && delivered <= more
    ensures Covered(more, history, from, upTo)
  {
    forall e | e in history && from <= e.tx.ledger <= upTo ensures e.tx in more {
      var i :| 0 <= i < |delivered| && delivered[i] == e.tx;
      assert more[i] == e.tx;
    }
  }

  /** Two adjoining covered ranges are one. */
  lemma CoveredJoin(delivered: seq<XrplTx>, history: seq<Item>, from: int, mid: int, upTo: int)
    requires Covered(delivered, history, from, mid) && Covered(delivered, history, mid + 1, upTo)
    ensures Covered(delivered, history, from, upTo)
  {
    forall e | e in history && from <= e.tx.ledger <= upTo ensures e.tx in delivered {
      assert e.tx.ledger <= mid || mid + 1 <= e.tx.ledger;
    }
  }

  /** A finished scan has covered its range up to the end asked for. */
  lemma FineCovers(delivered: seq<XrplTx>, history: seq<Item>, startLedger: int, endLedger: int, tip: int)
    requires Ordered(history)
    requires forall tx :: tx in Txs(Listed(history, startLedger, endLedger, tip)) ==> tx in delivered
    ensures Covered(delivered, history, startLedger, endLedger)
  {
    InRangeMeaning(history, Bound(startLedger), if Bound(endLedger) == -1 then tip else endLedger);
    forall e | e in history && startLedger <= e.tx.ledger <= endLedger ensures e.tx in delivered {
      var j :| 0 <= j < |history| && history[j] == e;
      var listed := Listed(history, startLedger, endLedger, tip);
      assert e in listed;
      var i :| 0 <= i < |listed| && listed[i] == e;
      assert Txs(listed)[i] == e.tx;
    }
  }

  /** One attempt's conditions: how its page requests turn out, and the latest ledger the server then knows. */
  datatype Attempt = Attempt(replies: nat -> Reply, tip: int)

  /** Every request of the attempt gets through. */
  ghost predicate Smooth(a: Attempt) {
    forall n :: Undisturbed(a.replies(n))
  }

  /** No request of the attempt is cut short by cancellation. */
  ghost predicate NeverCancels(a: Attempt) {
    forall n :: !Cancels(a.replies(n))
  }

  /**
   * The history scan with retries, resuming after each failure one ledger past the cursor.
   * `attempts` is how often it gets to try before the process is stopped.
   */
  method ScanHistory(history: seq<Item>, historyStart: int, endLedger: int, attempts: seq<Attempt>, ch: Channel)
    returns (cursor: int, verdict: Verdict)
    requires Ordered(history)
    modifies ch
    ensures old(ch.delivered) <= ch.delivered && OnlyFrom(history, old(ch.delivered), ch.delivered)
    ensures Covered(ch.delivered, history, historyStart, cursor)
    ensures verdict == Fine ==> Covered(ch.delivered, history, historyStart, endLedger)
    ensures verdict != Cancelled ==> cursor >= historyStart - 1
    ensures Ascending(ch.delivered, |old(ch.delivered)|)
    ensures AskedFor(ch.delivered, |old(ch.delivered)|, historyStart, endLedger)
    ensures verdict != Cancelled ==> PastHandedOver(ch.delivered, |old(ch.delivered)|, cursor)
    ensures verdict != Cancelled && Decodable(history) && (exists a :: a in attempts && Smooth(a)) ==> verdict == Fine
    ensures (forall a :: a in attempts ==> NeverCancels(a)) ==> verdict != Cancelled
  {
    cursor, verdict := historyStart - 1, Failed;
    for a := 0 to |attempts|
      invariant old(ch.delivered) <= ch.delivered && OnlyFrom(history, old(ch.delivered), ch.delivered)
      invariant Covered(ch.delivered, history, historyStart, cursor)
      invariant verdict == Failed && cursor >= historyStart - 1
      invariant Ascending(ch.delivered, |old(ch.delivered)|)
      invariant AskedFor(ch.delivered, |old(ch.delivered)|, historyStart, endLedger)
      invariant PastHandedOver(ch.delivered, |old(ch.delivered)|, cursor)
      invariant Decodable(history) ==> forall b :: b in attempts[..a] ==> !Smooth(b)
    {
      ghost var before := ch.delivered;
      var start := cursor + 1;
      var next;
      next, verdict := SubscribeAccountTransactions(history, start, endLedger, attempts[a].tip, attempts[a].replies, ch);
      OnlyFromWider(history, history, old(ch.delivered), before, ch.delivered);
      CoveredGrows(before, ch.delivered, history, historyStart, start - 1);
      CoveredJoin(ch.delivered, history, historyStart, start - 1, next);
      Resumed(before, ch.delivered, |old(ch.delivered)|, cursor, endLedger);
      cursor := next;
      if verdict == Cancelled {
        assert !NeverCancels(attempts[a]);
        return;
      }
      if verdict == Fine {
        FineCovers(ch.delivered, history, start, endLedger, attempts[a].tip);
        CoveredJoin(ch.delivered, history, historyStart, start - 1, endLedger);
        return;
      }
    }
  }

  /** An attempt that starts right behind the cursor continues in ledger order. */
  lemma Resumed(before: seq<XrplTx>, delivered: seq<XrplTx>, from: nat, cursor: int, endLedger: int)
    requires before <= delivered && from <= |before|
    requires Ascending(before, from) && PastHandedOver(before, from, cursor)
    requires Ascending(delivered, |before|) && AskedFor(delivered, |before|, cursor + 1, endLedger)
    ensures Ascending(delivered, from)
  {
    forall i, j | from <= i < j < |delivered| ensures delivered[i].ledger <= delivered[j].ledger {
      assert i < |before| ==> delivered[i] == before[i];
      assert j < |before| ==> delivered[j] == before[j];
    }
  }

  const SKIP_LAST_INDEXES := 20

  /** One round of the recent scan: the current ledger, if the server told it, and the attempt's conditions. */
  datatype RecentRound = RecentRound(current: Option<int>, attempt: Attempt)

  /** `reached` is at least the end of every round that gets through. */
  ghost predicate ReachesRounds(rounds: seq<RecentRound>, reached: int) {
    forall r :: r in rounds && r.current.Some? && Smooth(r.attempt) ==> reached >= r.current.value - 20
  }

  /** What the recent scan hands over lies behind the split and 20 ledgers short of a current one it was told. */
  ghost predicate RecentOnly(delivered: seq<XrplTx>, from: nat, split: int, rounds: seq<RecentRound>) {
    forall i :: from <= i < |delivered| ==>
      split < delivered[i].ledger && exists r :: r in rounds && UpToRound(r, delivered[i].ledger)
  }

  predicate UpToRound(r: RecentRound, ledger: int) {
    r.current.Some? && (r.current.value <= 20 || ledger <= r.current.value - 20)
  }

  /**
   * The recent scan repeats for ever; `rounds` is the part of it looked at. `reached` is the
   * highest end of a completed round.
   */
  method ScanRecent(history: seq<Item>, firstEnd: int, rounds: seq<RecentRound>, ch: Channel)
    returns (prevEnd: int, reached: int, cancelled: bool)
    requires Ordered(history)
    modifies ch
    ensures old(ch.delivered) <= ch.delivered && OnlyFrom(history, old(ch.delivered), ch.delivered)
    ensures Covered(ch.delivered, history, firstEnd + 1, prevEnd)
    ensures Covered(ch.delivered, history, firstEnd + 1, reached)
    ensures !cancelled ==> prevEnd >= firstEnd && PastHandedOver(ch.delivered, |old(ch.delivered)|, prevEnd)
    ensures Ascending(ch.delivered, |old(ch.delivered)|)
    ensures RecentOnly(ch.delivered, |old(ch.delivered)|, firstEnd, rounds)
    ensures !cancelled && Decodable(history) ==> ReachesRounds(rounds, reached)
    ensures RoundsGoOn(rounds) ==> !cancelled
  {
    prevEnd, reached, cancelled := firstEnd, firstEnd, false;
    var i := 0;
    while i < |rounds|
      invariant 0 <= i <= |rounds|
      invariant old(ch.delivered) <= ch.delivered && OnlyFrom(history, old(ch.delivered), ch.delivered)
      invariant prevEnd >= firstEnd && PastHandedOver(ch.delivered, |old(ch.delivered)|, prevEnd)
      invariant Ascending(ch.delivered, |old(ch.delivered)|)
      invariant RecentOnly(ch.delivered, |old(ch.delivered)|, firstEnd, rounds)
      invariant Covered(ch.delivered, history, firstEnd + 1, prevEnd)
      invariant Covered(ch.delivered, history, firstEnd + 1, reached)
      invariant !cancelled && (Decodable(history) ==> ReachesRounds(rounds[..i], reached))
    {
      var start := prevEnd + 1;
      var round := rounds[i];
      i := i + 1;
      if round.current.None? {
        continue;
      }
      var endLedger := round.current.value - SKIP_LAST_INDEXES;
      ghost var before := ch.delivered;
      var latest, verdict := SubscribeAccountTransactions(history, start, endLedger, round.attempt.tip,
                                                          round.attempt.replies, ch);
      OnlyFromWider(history, history, old(ch.delivered), before, ch.delivered);
      CoveredGrows(before, ch.delivered, history, firstEnd + 1, start - 1);
      CoveredGrows(before, ch.delivered, history, firstEnd + 1, reached);
      CoveredJoin(ch.delivered, history, firstEnd + 1, start - 1, latest);
      Resumed(before, ch.delivered, |old(ch.delivered)|, prevEnd, endLedger);
      RecentRoundOnly(before, ch.delivered, |old(ch.delivered)|, firstEnd, rounds, round, start);
      prevEnd := latest;
      if verdict == Cancelled {
        cancelled := true;
        return;
      }
      if verdict == Fine {
        FineCovers(ch.delivered, history, start, endLedger, round.attempt.tip);
        CoveredJoin(ch.delivered, history, firstEnd + 1, start - 1, endLedger);
        if endLedger > reached {
          reached := endLedger;
        }
      }
    }
  }

  lemma RecentRoundOnly(before: seq<XrplTx>, delivered: seq<XrplTx>, from: nat, split: int,
                        rounds: seq<RecentRound>, round: RecentRound, start: int)
    requires before <= delivered && from <= |before| && RecentOnly(before, from, split, rounds)
    requires round in rounds && round.current.Some? && split < start
    requires AskedFor(delivered, |before|, start, round.current.value - SKIP_LAST_INDEXES)
    ensures RecentOnly(delivered, from, split, rounds)
  {
    forall i | from <= i < |delivered|
      ensures split < delivered[i].ledger && exists r :: r in rounds && UpToRound(r, delivered[i].ledger)
    {
      if i < |before| {
        assert delivered[i] == before[i];
      } else {
        assert UpToRound(round, delivered[i].ledger);
      }
    }
  }

  /** The history gets through: it decodes, some attempt is smooth, and none is cancelled. */
  ghost predicate HistoryGetsThrough(history: seq<Item>, attempts: seq<Attempt>) {
    && Decodable(history)
    && (exists a :: a in attempts && Smooth(a))
    && (forall a :: a in attempts ==> NeverCancels(a))
  }

  /** No round of the recent scan is cancelled. */
  ghost predicate RoundsGoOn(rounds: seq<RecentRound>) {
    forall r :: r in rounds ==> NeverCancels(r.attempt)
  }

  /** From `from` to `n` the history up to the split, from `n` on the recent ledgers behind it, each in ledger order. */
  ghost predicate HistoryThenRecent(delivered: seq<XrplTx>, from: nat, n: nat, historyStart: int, split: int,
                                    rounds: seq<RecentRound>)
  {
    && from <= n <= |delivered|
    && Ascending(delivered[..n], from) && AskedFor(delivered[..n], from, historyStart, split)
    && Ascending(delivered, n) && RecentOnly(delivered, n, split, rounds)
  }

  ghost predicate InTwoParts(delivered: seq<XrplTx>, from: nat, historyStart: int, split: int, rounds: seq<RecentRound>) {
    exists n: nat :: HistoryThenRecent(delivered, from, n, historyStart, split, rounds)
  }

  /**
   * The whole subscription: the history scan up to the split, the recent scan from the split on.
   * Both hand over to the same channel; together they leave no gap, and how far they get is
   * bounded from below by what the server lets through.
   */
  method Subscribe(history: seq<Item>, historyStart: int, recentBack: int, initialLedger: int,
                   attempts: seq<Attempt>, rounds: seq<RecentRound>, ch: Channel)
    returns (accepted: bool, done: bool, cursor: int, recent: int, reached: int)
    requires Ordered(history)
    modifies ch
    ensures accepted <==> recentBack > 0
    ensures old(ch.delivered) <= ch.delivered && OnlyFrom(history, old(ch.delivered), ch.delivered)
    ensures !accepted ==> ch.delivered == old(ch.delivered)
    ensures accepted && HistoryGetsThrough(history, attempts) ==> done
    ensures accepted && (forall a :: a in attempts ==> NeverCancels(a)) ==> cursor >= historyStart - 1
    ensures accepted && RoundsGoOn(rounds) ==> recent >= initialLedger - recentBack
    ensures accepted && RoundsGoOn(rounds) && Decodable(history) ==> ReachesRounds(rounds, reached)
    ensures accepted ==> Covered(ch.delivered, history, historyStart, cursor)
                         && Covered(ch.delivered, history, initialLedger - recentBack + 1, recent)
                         && Covered(ch.delivered, history, initialLedger - recentBack + 1, reached)
    ensures accepted ==> InTwoParts(ch.delivered, |old(ch.delivered)|, historyStart, initialLedger - recentBack, rounds)
    ensures accepted && done ==> Covered(ch.delivered, history, historyStart, recent)
                                 && Covered(ch.delivered, history, historyStart, reached)
                                 && Covered(ch.delivered, history, historyStart, initialLedger - recentBack)
  {
    if recentBack <= 0 {
      return false, false, 0, 0, 0;
    }
    var split := initialLedger - recentBack;
    var verdict, cancelled;
    cursor, verdict := ScanHistory(history, historyStart, split, attempts, ch);
    ghost var before := ch.delivered;
    recent, reached, cancelled := ScanRecent(history, split, rounds, ch);
    assert ch.delivered[..|before|] == before;
    assert HistoryThenRecent(ch.delivered, |old(ch.delivered)|, |before|, historyStart, split, rounds);
    OnlyFromWider(history, history, old(ch.delivered), before, ch.delivered);
    accepted, done := true, verdict == Fine;
    CoveredGrows(before, ch.delivered, history, historyStart, cursor);
    if done {
      CoveredGrows(before, ch.delivered, history, historyStart, split);
      CoveredJoin(ch.delivered, history, historyStart, split, recent);
      CoveredJoin(ch.delivered, history, historyStart, split, reached);
    }
  }
}
