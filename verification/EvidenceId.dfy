/**
 * The string key under which votes for one payment are gathered:
 * the lower-cased text `id-amountdenom-recipient`.
 */
module EvidenceId {
  import opened Prelude

  function LowerChar(c: char): char {
    if 'A' <= c <= 'Z' then (c as int + 32) as char else c
  }

  function Lower(s: string): string {
    seq(|s|, i requires 0 <= i < |s| => LowerChar(s[i]))
  }

  predicate IsDigit(c: char) {
    '0' <= c <= '9'
  }

  /** The text has no digit in front, so it cannot be read as part of an amount. */
  predicate NonDigitStart(s: string) {
    s == "" || !IsDigit(s[0])
  }

  function Digit(n: nat): char
    requires n < 10
  {
    ('0' as int + n) as char
  }

  function Decimal(n: nat): string {
    if n < 10 then [Digit(n)] else Decimal(n / 10) + [Digit(n % 10)]
  }

  function Build(id: string, amount: nat, denom: string, recipient: string): string {
    Lower(id + "-" + (Decimal(amount) + denom) + "-" + recipient)
  }

  /** The text before the first dash. */
  function ExtractId(key: string): string {
    if key == "" || key[0] == '-' then "" else [key[0]] + ExtractId(key[1..])
  }

  // ---------- lower-casing ----------

  /** Nothing but capital letters is replaced, and these by the small ones. */
  lemma LowerMeaning(s: string)
    ensures |Lower(s)| == |s| && forall i :: 0 <= i < |s| && !('A' <= s[i] <= 'Z') ==> Lower(s)[i] == s[i]
    ensures Lower("ABCDEFGHIJKLMNOPQRSTUVWXYZ") == "abcdefghijklmnopqrstuvwxyz"
  {
    var a, b := "ABCDEFGHIJKLMNOPQRSTUVWXYZ", "abcdefghijklmnopqrstuvwxyz";
    assert forall k :: 0 <= k < 26 ==> Lower(a)[k] == b[k];
  }

  lemma LowerConcat(a: string, b: string)
    ensures Lower(a + b) == Lower(a) + Lower(b)
  {
  }

  lemma LowerIdempotent(s: string)
    ensures Lower(Lower(s)) == Lower(s)
  {
  }

  lemma LowerKeepsDash(s: string)
    ensures '-' in Lower(s) <==> '-' in s
  {
    forall i | 0 <= i < |s| ensures Lower(s)[i] == '-' <==> s[i] == '-' {
    }
    if '-' in s {
      var i :| 0 <= i < |s| && s[i] == '-';
      assert Lower(s)[i] == '-';
    }
  }

  lemma LowerKeepsNonDigitStart(s: string)
    ensures NonDigitStart(Lower(s)) <==> NonDigitStart(s)
  {
    if s != "" {
      assert Lower(s)[0] == LowerChar(s[0]);
    }
  }

  lemma {:induction false} LowerDecimal(n: nat)
    ensures Lower(Decimal(n)) == Decimal(n)
  {
    if n >= 10 {
      LowerDecimal(n / 10);
      LowerConcat(Decimal(n / 10), [Digit(n % 10)]);
      assert Lower([Digit(n % 10)]) == [Digit(n % 10)];
    }
  }

  // ---------- reading a key back ----------

  function DigitValue(c: char): nat {
    if IsDigit(c) then c as int - '0' as int else 0
  }

  /** The value of a digit string, most significant digit first. */
  function Value(s: string): nat {
    if s == "" then 0 else 10 * Value(s[..|s| - 1]) + DigitValue(s[|s| - 1])
  }

  /** The longest prefix made of digits. */
  function DigitPrefix(s: string): (p: string)
    ensures |p| <= |s|
  {
    if s == "" || !IsDigit(s[0]) then "" else [s[0]] + DigitPrefix(s[1..])
  }

  /** The text after the last dash. */
  function AfterLastDash(s: string): string {
    if s == "" || s[|s| - 1] == '-' then "" else AfterLastDash(s[..|s| - 1]) + [s[|s| - 1]]
  }

  datatype Evidence = Evidence(id: string, amount: nat, denom: string, recipient: string)

  datatype Parts = Parts(id: string, middle: string, recipient: string)

  /** The id before the first dash, the recipient after the last, and what lies between. */
  function Split(key: string): Option<Parts> {
    Cut(key, ExtractId(key), AfterLastDash(key))
  }

  /** What is left between the given ends of the key and the two dashes next to them. */
  function Cut(key: string, id: string, recipient: string): Option<Parts> {
    if |id| + |recipient| + 2 > |key| then None
    else Some(Parts(id, key[|id| + 1..|key| - |recipient| - 1], recipient))
  }

  /** The middle is an amount followed by a denom. */
  function Read(p: Parts): Evidence {
    var digits := DigitPrefix(p.middle);
    Evidence(p.id, Value(digits), p.middle[|digits|..], p.recipient)
  }

  /** Full inverse of Build. */
  function Parse(key: string): Option<Evidence> {
    var p := Split(key);
    if p.None? then None else Some(Read(p.value))
  }

  lemma {:induction false} ExtractIdConcat(a: string, b: string)
    requires '-' !in a
    ensures ExtractId(a + "-" + b) == a
  {
    if a == "" {
      assert (a + "-" + b)[0] == '-';
    } else {
      assert (a + "-" + b)[1..] == a[1..] + "-" + b;
      ExtractIdConcat(a[1..], b);
    }
  }

  lemma {:induction false} ExtractIdDashFree(s: string)
    ensures '-' !in ExtractId(s)
  {
    if s != "" && s[0] != '-' {
      ExtractIdDashFree(s[1..]);
    }
  }

  lemma {:induction false} AfterLastDashConcat(a: string, b: string)
    requires '-' !in b
    ensures AfterLastDash(a + "-" + b) == b
  {
    var s := a + "-" + b;
    if b == "" {
      assert s[|s| - 1] == '-';
    } else {
      var n := |b| - 1;
      assert s[..|s| - 1] == a + "-" + b[..n];
      AfterLastDashConcat(a, b[..n]);
      assert b == b[..n] + [b[n]];
    }
  }

  lemma {:induction false} DecimalValue(n: nat)
    ensures Decimal(n) != ""
    ensures forall i :: 0 <= i < |Decimal(n)| ==> IsDigit(Decimal(n)[i])
    ensures Value(Decimal(n)) == n
  {
    if n >= 10 {
      DecimalValue(n / 10);
      var s := Decimal(n);
      assert s[..|s| - 1] == Decimal(n / 10);
    }
  }

  lemma {:induction false} DigitPrefixConcat(a: string, b: string)
    requires forall i :: 0 <= i < |a| ==> IsDigit(a[i])
    requires NonDigitStart(b)
    ensures DigitPrefix(a + b) == a
  {
    if a == "" {
      assert a + b == b;
    } else {
      assert (a + b)[1..] == a[1..] + b;
      DigitPrefixConcat(a[1..], b);
    }
  }

  lemma BuildShape(id: string, amount: nat, denom: string, recipient: string)
    ensures Build(id, amount, denom, recipient)
         == Lower(id) + "-" + (Decimal(amount) + Lower(denom)) + "-" + Lower(recipient)
  {
    var middle := Decimal(amount) + denom;
    LowerConcat(id + "-" + middle + "-", recipient);
    LowerConcat(id + "-" + middle, "-");
    LowerConcat(id + "-", middle);
    LowerConcat(id, "-");
    LowerConcat(Decimal(amount), denom);
    LowerDecimal(amount);
    assert Lower("-") == "-";
  }

  /** The id taken back out of a key is the normalised id exactly when the id has no dash. */
  lemma ExtractRoundTrip(id: string, amount: nat, denom: string, recipient: string)
    ensures ExtractId(Build(id, amount, denom, recipient)) == Lower(id) <==> '-' !in id
  {
    BuildShape(id, amount, denom, recipient);
    var middle := Decimal(amount) + Lower(denom);
    var key := Build(id, amount, denom, recipient);
    LowerKeepsDash(id);
    if '-' !in id {
      assert key == Lower(id) + "-" + (middle + "-" + Lower(recipient));
      ExtractIdConcat(Lower(id), middle + "-" + Lower(recipient));
    } else {
      ExtractIdDashFree(key);
    }
  }

  function Join(id: string, middle: string, recipient: string): string {
    id + "-" + middle + "-" + recipient
  }

  lemma JoinId(id: string, middle: string, recipient: string)
    requires '-' !in id
    ensures ExtractId(Join(id, middle, recipient)) == id
  {
    assert Join(id, middle, recipient) == id + "-" + (middle + "-" + recipient);
    ExtractIdConcat(id, middle + "-" + recipient);
  }

  lemma JoinRecipient(id: string, middle: string, recipient: string)
    requires '-' !in recipient
    ensures AfterLastDash(Join(id, middle, recipient)) == recipient
  {
    AfterLastDashConcat(id + "-" + middle, recipient);
  }

  lemma JoinMiddle(id: string, middle: string, recipient: string)
    ensures var key := Join(id, middle, recipient);
      |key| == |id| + |middle| + |recipient| + 2 && key[|id| + 1..|id| + 1 + |middle|] == middle
  {
    var l, r := id + "-", "-" + recipient;
    assert Join(id, middle, recipient) == l + middle + r;
    MiddleSlice(l, middle, r);
  }

  /** The three parts of a key are found by its first and last dash. */
  lemma SplitJoin(id: string, middle: string, recipient: string)
    requires '-' !in id && '-' !in recipient
    ensures Split(Join(id, middle, recipient)) == Some(Parts(id, middle, recipient))
  {
    JoinId(id, middle, recipient);
    JoinRecipient(id, middle, recipient);
    JoinMiddle(id, middle, recipient);
    CutMiddle(Join(id, middle, recipient), id, middle, recipient);
  }

  lemma CutMiddle(key: string, id: string, middle: string, recipient: string)
    requires |key| == |id| + |middle| + |recipient| + 2 && key[|id| + 1..|id| + 1 + |middle|] == middle
    ensures Cut(key, id, recipient) == Some(Parts(id, middle, recipient))
  {
    assert |key| - |recipient| - 1 == |id| + 1 + |middle|;
  }

  lemma MiddleParts(amount: nat, denom: string)
    requires NonDigitStart(denom)
    ensures var middle := Decimal(amount) + denom;
      DigitPrefix(middle) == Decimal(amount) && Value(DigitPrefix(middle)) == amount && middle[|Decimal(amount)|..] == denom
  {
    DecimalValue(amount);
    DigitPrefixConcat(Decimal(amount), denom);
  }

  /** Parsing undoes building, up to letter case. */
  lemma ParseRoundTrip(id: string, amount: nat, denom: string, recipient: string)
    requires '-' !in id && '-' !in recipient && NonDigitStart(denom)
    ensures Parse(Build(id, amount, denom, recipient))
         == Some(Evidence(Lower(id), amount, Lower(denom), Lower(recipient)))
  {
    BuildShape(id, amount, denom, recipient);
    LowerKeepsDash(id);
    LowerKeepsDash(recipient);
    LowerKeepsNonDigitStart(denom);
    SplitJoin(Lower(id), Decimal(amount) + Lower(denom), Lower(recipient));
    MiddleParts(amount, Lower(denom));
  }

  /** Two payloads share a key exactly when they agree on everything but letter case. */
  lemma BuildInjective(id: string, amount: nat, denom: string, recipient: string,
                       id': string, amount': nat, denom': string, recipient': string)
    requires '-' !in id && '-' !in recipient && NonDigitStart(denom)
    requires '-' !in id' && '-' !in recipient' && NonDigitStart(denom')
    ensures Build(id, amount, denom, recipient) == Build(id', amount', denom', recipient')
       <==> Lower(id) == Lower(id') && amount == amount' && Lower(denom) == Lower(denom')
            && Lower(recipient) == Lower(recipient')
  {
    ParseRoundTrip(id, amount, denom, recipient);
    ParseRoundTrip(id', amount', denom', recipient');
    BuildShape(id, amount, denom, recipient);
    BuildShape(id', amount', denom', recipient');
  }

  /** The key does not depend on the letter case of the id. */
  lemma BuildLower(id: string, amount: nat, denom: string, recipient: string)
    ensures Build(Lower(id), amount, denom, recipient) == Build(id, amount, denom, recipient)
  {
    BuildShape(id, amount, denom, recipient);
    BuildShape(Lower(id), amount, denom, recipient);
    LowerIdempotent(id);
  }

  // ---------- which payloads share a key ----------

  /** Payloads with dash-free ids and recipients under one key agree on everything but where the amount ends. */
  lemma SameKeyText(id: string, amount: nat, denom: string, recipient: string,
                    id': string, amount': nat, denom': string, recipient': string)
    requires '-' !in id && '-' !in recipient && '-' !in id' && '-' !in recipient'
    requires Build(id, amount, denom, recipient) == Build(id', amount', denom', recipient')
    ensures Lower(id) == Lower(id') && Lower(recipient) == Lower(recipient')
    ensures Decimal(amount) + Lower(denom) == Decimal(amount') + Lower(denom')
  {
    BuildShape(id, amount, denom, recipient);
    BuildShape(id', amount', denom', recipient');
    LowerKeepsDash(id);
    LowerKeepsDash(id');
    LowerKeepsDash(recipient);
    LowerKeepsDash(recipient');
    SplitJoin(Lower(id), Decimal(amount) + Lower(denom), Lower(recipient));
    SplitJoin(Lower(id'), Decimal(amount') + Lower(denom'), Lower(recipient'));
  }

  lemma {:induction false} ValueGrows(a: string, b: string)
    ensures Value(a) <= Value(a + b)
    decreases |b|
  {
    if b == "" {
      assert a + b == a;
    } else {
      var n := |b| - 1;
      assert (a + b)[..|a + b| - 1] == a + b[..n];
      ValueGrows(a, b[..n]);
    }
  }

  /** Digits followed by a text that starts with none reach as far as digits go. */
  lemma DigitsReach(x: string, d: string, y: string, e: string)
    requires forall i :: 0 <= i < |x| ==> IsDigit(x[i])
    requires NonDigitStart(e) && x + d == y + e
    ensures |x| <= |y|
  {
    assert (x + d)[..|x|] == x && (y + e)[|y|..] == e;
  }

  lemma SplitAgain(x: string, d: string, y: string, e: string)
    requires x + d == y + e && |x| <= |y|
    ensures y == x + y[|x|..] && d == y[|x|..] + e
  {
    assert x == (x + d)[..|x|] && d == (x + d)[|x|..];
    assert (y + e)[..|x|] == y[..|x|] && (y + e)[|x|..] == y[|x|..] + e;
  }

  /**
   * Two readings of one amount-denom text, the second with a proper denom: the first has the same
   * amount exactly if its denom is proper too, and a smaller one otherwise.
   */
  lemma AmountReadings(a: nat, d: string, b: nat, e: string)
    requires Decimal(a) + d == Decimal(b) + e && NonDigitStart(e)
    ensures a <= b
    ensures a == b <==> NonDigitStart(d)
    ensures a == b ==> d == e
  {
    var x, y := Decimal(a), Decimal(b);
    DecimalValue(a);
    DecimalValue(b);
    DigitsReach(x, d, y, e);
    SplitAgain(x, d, y, e);
    var rest := y[|x|..];
    ValueGrows(x, rest);
    if rest == "" {
      assert x + rest == x && rest + e == e;
    } else {
      assert d[0] == rest[0] == y[|x|];
      assert a != b;
    }
  }

  /** No dash is followed by a digit, so nothing after a dash can be read as an amount. */
  predicate NoDigitAfterDash(s: string) {
    forall i :: 0 < i < |s| && IsDigit(s[i]) ==> s[i - 1] != '-'
  }

  lemma LowerKeepsNoDigitAfterDash(s: string)
    requires NoDigitAfterDash(s)
    ensures NoDigitAfterDash(Lower(s))
  {
    forall i | 0 < i < |Lower(s)| && IsDigit(Lower(s)[i]) ensures Lower(s)[i - 1] != '-' {
      assert IsDigit(s[i]) && s[i - 1] != '-';
    }
  }

  /** In `a-digits denom` only the dash before the digits is followed by a digit. */
  lemma OnlyAmountDash(a: string, digits: string, denom: string, k: nat)
    requires NoDigitAfterDash(a) && NoDigitAfterDash(denom)
    requires digits != "" && forall i :: 0 <= i < |digits| ==> IsDigit(digits[i])
    requires var s := a + "-" + (digits + denom); k + 1 < |s| && s[k] == '-' && IsDigit(s[k + 1])
    ensures k == |a|
  {
    var s, base := a + "-" + (digits + denom), |a| + 1 + |digits|;
    assert s[..|a|] == a && s[|a| + 1..base] == digits && s[base..] == denom;
    assert s[|a|] == '-';
  }

  /** Where no dash of id or denom is followed by a digit, all payloads of the key have that id and that middle. */
  lemma OneIdPerKey(id: string, amount: nat, denom: string, recipient: string,
                    id': string, amount': nat, denom': string, recipient': string)
    requires NoDigitAfterDash(id) && NoDigitAfterDash(denom) && '-' !in recipient && '-' !in recipient'
    requires Build(id, amount, denom, recipient) == Build(id', amount', denom', recipient')
    ensures Lower(id') == Lower(id)
    ensures Decimal(amount') + Lower(denom') == Decimal(amount) + Lower(denom)
  {
    BuildShape(id, amount, denom, recipient);
    BuildShape(id', amount', denom', recipient');
    LowerKeepsDash(recipient);
    LowerKeepsDash(recipient');
    LowerKeepsNoDigitAfterDash(id);
    LowerKeepsNoDigitAfterDash(denom);
    var front := Lower(id) + "-" + (Decimal(amount) + Lower(denom));
    var front' := Lower(id') + "-" + (Decimal(amount') + Lower(denom'));
    SameFront(front, Lower(recipient), front', Lower(recipient'));
    DecimalValue(amount);
    DecimalValue(amount');
    var k := |Lower(id')|;
    assert front'[k] == '-' && front'[k + 1] == Decimal(amount')[0];
    OnlyAmountDash(Lower(id), Decimal(amount), Lower(denom), k);
    assert Lower(id') == front'[..k] == front[..k] == Lower(id);
    assert front'[k + 1..] == front[k + 1..];
  }

  lemma SameFront(front: string, tail: string, front': string, tail': string)
    requires '-' !in tail && '-' !in tail' && front + "-" + tail == front' + "-" + tail'
    ensures front == front'
  {
    AfterLastDashConcat(front, tail);
    AfterLastDashConcat(front', tail');
    var s, s' := front + "-" + tail, front' + "-" + tail';
    assert front == s[..|s| - |tail| - 1] && front' == s'[..|s'| - |tail'| - 1];
  }

  /** Where a dash of the denom is followed by a digit, the same key can be had with a dashed id. */
  lemma DashedReading(id: string, amount: nat, denom: string, recipient: string)
    returns (id': string, amount': nat, denom': string)
    requires !NoDigitAfterDash(denom)
    ensures '-' in id' && Lower(id') != Lower(id)
    ensures Build(id', amount', denom', recipient) == Build(id, amount, denom, recipient)
  {
    var i :| 0 < i < |denom| && IsDigit(denom[i]) && denom[i - 1] == '-';
    var left, right := denom[..i - 1], [denom[i]] + denom[i + 1..];
    id', amount', denom' := id + "-" + Decimal(amount) + left, DigitValue(denom[i]), denom[i + 1..];
    assert id'[|id|] == '-';
    assert |Lower(id')| > |Lower(id)|;
    assert Decimal(amount') == [denom[i]];
    assert denom == left + "-" + right;
    Regroup(id, Decimal(amount), left, right, recipient);
  }

  /** Where a dash of the id is followed by a digit, the same key can be had with a shorter id. */
  lemma ShorterReading(id: string, amount: nat, denom: string, recipient: string)
    returns (id': string, amount': nat, denom': string)
    requires !NoDigitAfterDash(id)
    ensures Lower(id') != Lower(id)
    ensures Build(id', amount', denom', recipient) == Build(id, amount, denom, recipient)
  {
    var i :| 0 < i < |id| && IsDigit(id[i]) && id[i - 1] == '-';
    var left, right := id[..i - 1], id[i + 1..];
    id', amount', denom' := left, DigitValue(id[i]), right + "-" + (Decimal(amount) + denom);
    assert |Lower(id')| < |Lower(id)|;
    assert Decimal(amount') == [id[i]];
    assert id == left + "-" + ([id[i]] + right);
    Regroup(left, [id[i]], right, Decimal(amount) + denom, recipient);
    RegroupId(left, [id[i]], right, Decimal(amount) + denom, recipient);
  }

  lemma RegroupId(left: string, digits: string, right: string, middle: string, recipient: string)
    ensures (left + "-" + (digits + right)) + "-" + middle + "-" + recipient
         == (left + "-" + digits + right) + "-" + middle + "-" + recipient
  {
  }

  lemma Regroup(id: string, digits: string, left: string, right: string, recipient: string)
    ensures (id + "-" + digits + left) + "-" + right + "-" + recipient
         == id + "-" + (digits + (left + "-" + right)) + "-" + recipient
  {
  }

  /** A key with no more than its two separating dashes is made of dash-free parts. */
  lemma TwoDashes(id: string, amount: nat, denom: string, recipient: string)
    requires multiset(Build(id, amount, denom, recipient))['-'] <= 2
    ensures '-' !in id && '-' !in denom && '-' !in recipient
  {
    BuildShape(id, amount, denom, recipient);
    LowerKeepsDash(id);
    LowerKeepsDash(denom);
    LowerKeepsDash(recipient);
    var a, n, d, r := Lower(id), Decimal(amount), Lower(denom), Lower(recipient);
    assert multiset(a + "-" + (n + d) + "-" + r)
        == multiset(a) + multiset("-") + (multiset(n) + multiset(d)) + multiset("-") + multiset(r);
    assert multiset("-")['-'] == 1;
    assert '-' in a <==> multiset(a)['-'] > 0;
    assert '-' in d <==> multiset(d)['-'] > 0;
    assert '-' in r <==> multiset(r)['-'] > 0;
  }

  /** A digit at the front of the denom can be read as the last digit of a larger amount. */
  lemma ShiftedDigit(id: string, n: nat, denom: string, recipient: string)
    requires n > 0 && denom != "" && IsDigit(denom[0])
    ensures Build(id, n, denom, recipient) == Build(id, 10 * n + DigitValue(denom[0]), denom[1..], recipient)
  {
    var m := 10 * n + DigitValue(denom[0]);
    assert m / 10 == n && m % 10 == DigitValue(denom[0]);
    assert Decimal(m) == Decimal(n) + [denom[0]];
    assert Decimal(n) + denom == Decimal(m) + denom[1..];
  }

  /** Only zero is written with a zero in front. */
  lemma {:induction false} LeadingZero(n: nat)
    ensures Decimal(n) != "" && (Decimal(n)[0] == '0' <==> n == 0)
  {
    if n >= 10 {
      LeadingZero(n / 10);
    }
  }

  /** A text that begins with the amount zero has no other amount. */
  lemma ZeroReadings(a: nat, d: string, e: string)
    requires Decimal(a) + d == Decimal(0) + e
    ensures a == 0
  {
    LeadingZero(a);
    assert (Decimal(a) + d)[0] == Decimal(a)[0] && (Decimal(0) + e)[0] == '0';
  }

  predicate IsLetter(c: char) {
    'a' <= c <= 'z' || 'A' <= c <= 'Z'
  }

  predicate HasLetter(s: string) {
    exists i :: 0 <= i < |s| && IsLetter(s[i])
  }

  /** A text of its own has the same lower case exactly if it has a letter. */
  lemma OtherCaseIff(s: string)
    ensures (exists t :: t != s && Lower(t) == Lower(s)) <==> HasLetter(s)
  {
    if HasLetter(s) {
      var i :| 0 <= i < |s| && IsLetter(s[i]);
      var c := if 'a' <= s[i] <= 'z' then (s[i] as int - 32) as char else LowerChar(s[i]);
      var t := s[i := c];
      assert t[i] != s[i] && LowerChar(c) == LowerChar(s[i]);
      assert Lower(t) == Lower(s);
    }
    if t :| t != s && Lower(t) == Lower(s) {
      assert |t| == |Lower(t)| == |s|;
      var i :| 0 <= i < |s| && t[i] != s[i];
      assert Lower(t)[i] == Lower(s)[i];
      assert IsLetter(s[i]);
    }
  }

  /** Without the dash restriction two different payloads can share a key. */
  lemma DashedIdsCollide()
    ensures Build("a-1b", 5, "x", "r") == "a-1b-5x-r" == Build("a", 1, "b-5x", "r")
  {
    BuildShape("a-1b", 5, "x", "r");
    BuildShape("a", 1, "b-5x", "r");
    assert Lower("a-1b") == "a-1b" && Lower("a") == "a" && Lower("b-5x") == "b-5x";
    assert Lower("x") == "x" && Lower("r") == "r";
    assert Decimal(5) == "5" && Decimal(1) == "1";
  }
}
