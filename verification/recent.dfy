/** The agent's list of recently surfaced messages: newest first, holding at
    most `Capacity` entries (agent.py:103-114). */
module RecentEmails {
  import opened Json

  const Capacity: nat := 10

  /** One `recent_emails` entry. `summary` and `category` are `None` when the
      extracted value was `null` (or, for the summary, absent). */
  datatype RecentItem = RecentItem(
    id: string,
    subject: string,
    sender: string,
    summary: Option<string>,
    category: Option<string>,
    importance: string)

  function Min(a: nat, b: nat): nat {
    if a <= b then a else b
  }

  /** `insert(0, item)` followed by the slice `[:10]`. */
  function Push(recent: seq<RecentItem>, item: RecentItem): (r: seq<RecentItem>)
    ensures |r| == Min(|recent| + 1, Capacity)
    ensures r[0] == item
    ensures forall i :: 0 < i < |r| ==> r[i] == recent[i - 1]
  {
    ([item] + recent)[..Min(|recent| + 1, Capacity)]
  }

  /** Pushes `items` one after another, first element first. */
  function PushAll(recent: seq<RecentItem>, items: seq<RecentItem>): seq<RecentItem>
    decreases |items|
  {
    if |items| == 0 then recent else PushAll(Push(recent, items[0]), items[1..])
  }

  function Reverse<T>(s: seq<T>): (r: seq<T>)
    ensures |r| == |s|
    ensures forall i :: 0 <= i < |s| ==> r[i] == s[|s| - 1 - i]
  {
    if |s| == 0 then [] else Reverse(s[1..]) + [s[0]]
  }

  /** Truncating an inner suffix first changes nothing when the outer prefix
      does not reach past it. */
  lemma PrefixOfTruncated<T>(a: seq<T>, b: seq<T>, k: nat, n: nat)
    requires k <= |b| && n <= |a| + k
    ensures (a + b[..k])[..n] == (a + b)[..n]
  {
  }

  /** Any run of pushes leaves exactly the newest entries, newest first: the
      pushed items in reverse order followed by the old list, cut to
      `Capacity`. */
  lemma {:induction false} PushAllKeepsNewest(recent: seq<RecentItem>, items: seq<RecentItem>)
    requires |recent| <= Capacity
    ensures PushAll(recent, items) == (Reverse(items) + recent)[..Min(|items| + |recent|, Capacity)]
    decreases |items|
  {
    if |items| == 0 {
      assert Reverse(items) + recent == recent;
    } else {
      var x, rest := items[0], items[1..];
      var p := Push(recent, x);
      PushAllKeepsNewest(p, rest);
      var k := Min(|recent| + 1, Capacity);
      assert p == ([x] + recent)[..k];
      var m := Min(|items| + |recent|, Capacity);
      assert Min(|rest| + |p|, Capacity) == m;
      PrefixOfTruncated(Reverse(rest), [x] + recent, k, m);
      assert Reverse(items) == Reverse(rest) + [x];
      assert Reverse(rest) + ([x] + recent) == Reverse(items) + recent;
    }
  }

  /** Ten or more pushes keep only the ten most recently pushed items,
      newest first; everything older, including the whole previous list, is
      evicted. */
  lemma {:induction false} ManyPushesKeepLastTen(recent: seq<RecentItem>, items: seq<RecentItem>)
    requires |recent| <= Capacity
    requires |items| >= Capacity
    ensures PushAll(recent, items) == Reverse(items[|items| - Capacity..])
  {
    PushAllKeepsNewest(recent, items);
    var newest := items[|items| - Capacity..];
    assert Min(|items| + |recent|, Capacity) == Capacity;
    assert forall i :: 0 <= i < Capacity ==> (Reverse(items) + recent)[i] == Reverse(newest)[i];
  }
}
