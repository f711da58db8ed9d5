/**
 * The helper module's digest of a user's latest messages: newest first off
 * the end of the log, each shortened to 200 characters, until the next line
 * would overflow the budget, then shown oldest first under a time-zone note.
 * The bad-user cog itself never imports this helper.
 *
 * Message timestamps arrive already formatted; the Pacific-time conversion
 * is not modelled.
 */
module BadUserHelper {
  import opened Common

  datatype Msg = Msg(content: string, timestamp: string, url: string, channel: string)

  const BUDGET := 3900
  const HEADER := "*Timestamps are PST/PDT*\n"

  /** The first 200 characters, and "..." iff anything was cut. */
  function Clean(content: string): (c: string)
    ensures |content| <= 200 ==> c == content
    ensures |content| > 200 ==> c == content[..200] + "..."
    ensures |c| <= 203
  {
    (if |content| > 200 then content[..200] else content) + (if |content| > 200 then "..." else "")
  }

  /** One message as a linked timestamp, its channel and its shortened content. */
  function Line(m: Msg): string {
    "[" + m.timestamp + "](" + m.url + ") " + m.channel + ": " + Clean(m.content)
  }

  /** Whether the lines so far, joined, plus the next line pass the budget; the joining newline is not counted. */
  function Overflows(acc: seq<string>, result: string): bool {
    |Join("\n", acc) + result| > BUDGET
  }

  /**
   * The `while latest_messages` loop from collected lines `acc`: the lines
   * it collects and what is left of the log. The message that overflows is
   * popped too.
   */
  function Gather(items: seq<Msg>, acc: seq<string>): (r: (seq<string>, seq<Msg>))
    ensures acc <= r.0 && r.1 <= items
    ensures |r.1| + (|r.0| - |acc|) <= |items| <= |r.1| + (|r.0| - |acc|) + 1
    decreases |items|
  {
    if |items| == 0 then (acc, [])
    else
      var result := Line(items[|items| - 1]);
      var rest := items[..|items| - 1];
      if Overflows(acc, result) then (acc, rest)
      else Gather(rest, acc + [result])
  }

  lemma JoinAppendLength(parts: seq<string>, x: string)
    ensures |Join("\n", parts + [x])| == if |parts| == 0 then |x| else |Join("\n", parts)| + 1 + |x|
  {
    if |parts| > 1 {
      assert (parts + [x])[1..] == parts[1..] + [x];
      JoinAppendLength(parts[1..], x);
    } else if |parts| == 1 {
      assert parts + [x] == [parts[0], x];
      assert [parts[0], x][1..] == [x];
    }
  }

  /** The collected text stays within the budget, give or take the newline `join` adds. */
  lemma {:induction false} GatherWithinBudget(items: seq<Msg>, acc: seq<string>)
    requires |Join("\n", acc)| <= BUDGET + 1
    ensures |Join("\n", Gather(items, acc).0)| <= BUDGET + 1
    decreases |items|
  {
    if |items| > 0 {
      var result := Line(items[|items| - 1]);
      if |Join("\n", acc) + result| <= BUDGET {
        JoinAppendLength(acc, result);
        GatherWithinBudget(items[..|items| - 1], acc + [result]);
      }
    }
  }

  /** Lines of the `k` newest messages, newest first. */
  function Newest(items: seq<Msg>, k: nat): (r: seq<string>)
    requires k <= |items|
    ensures |r| == k && forall i :: 0 <= i < k ==> r[i] == Line(items[|items| - 1 - i])
  {
    if k == 0 then [] else [Line(items[|items| - 1])] + Newest(items[..|items| - 1], k - 1)
  }

  /**
   * `f` is `acc` followed by lines of the `k` newest messages, newest first;
   * `rem` is what is older, less the message that stopped the loop early.
   */
  predicate TakesNewest(items: seq<Msg>, acc: seq<string>, f: seq<string>, rem: seq<Msg>)
  {
    var k := |f| - |acc|;
    0 <= k <= |items| &&
    f == acc + Newest(items, k) &&
    ((k < |items| && rem == items[..|items| - k - 1]) || (k == |items| && rem == []))
  }

  lemma GatherStep(items: seq<Msg>, acc: seq<string>)
    requires |items| > 0
    ensures var result := Line(items[|items| - 1]);
      Gather(items, acc) == if Overflows(acc, result) then (acc, items[..|items| - 1])
                           else Gather(items[..|items| - 1], acc + [result])
  {
  }

  lemma TakesOneMore(items: seq<Msg>, acc: seq<string>, f: seq<string>, rem: seq<Msg>)
    requires |items| > 0
    requires TakesNewest(items[..|items| - 1], acc + [Line(items[|items| - 1])], f, rem)
    ensures TakesNewest(items, acc, f, rem)
  {
    var n := |items|;
    var k' := |f| - |acc| - 1;
    var last := Line(items[n - 1]);
    assert Newest(items, k' + 1) == [last] + Newest(items[..n - 1], k');
    assert f == acc + ([last] + Newest(items[..n - 1], k'));
    if k' < n - 1 {
      assert items[..n - 1][..n - 1 - k' - 1] == items[..n - (k' + 1) - 1];
    }
  }

  /** What the loop collects from `acc` is the newest messages, newest first. */
  lemma {:induction false} GatherTakesNewest(items: seq<Msg>, acc: seq<string>)
    ensures TakesNewest(items, acc, Gather(items, acc).0, Gather(items, acc).1)
    decreases |items|
  {
    if |items| > 0 {
      var result := Line(items[|items| - 1]);
      GatherStep(items, acc);
      if !Overflows(acc, result) {
        GatherTakesNewest(items[..|items| - 1], acc + [result]);
        TakesOneMore(items, acc, Gather(items, acc).0, Gather(items, acc).1);
      }
    }
  }

  lemma NewestInOrder(items: seq<Msg>, f: seq<string>)
    requires |f| <= |items| && f == Newest(items, |f|)
    ensures forall j :: 0 <= j < |f| ==> Reverse(f)[j] == Line(items[|items| - |f| + j])
  {
  }

  /**
   * The digest's shape: `f` holds lines of the `|f|` newest messages and,
   * reversed, lists them oldest first; `rem` is the log less those and,
   * when the loop stopped early, less the message that overflowed.
   */
  predicate Digested(items: seq<Msg>, f: seq<string>, rem: seq<Msg>)
  {
    |f| <= |items| &&
    (forall j :: 0 <= j < |f| ==> Reverse(f)[j] == Line(items[|items| - |f| + j])) &&
    ((|f| < |items| && rem == items[..|items| - |f| - 1]) || (|f| == |items| && rem == []))
  }

  lemma NewestReversed(items: seq<Msg>, f: seq<string>, rem: seq<Msg>)
    requires TakesNewest(items, [], f, rem)
    ensures Digested(items, f, rem)
  {
    assert |f| <= |items| && f == Newest(items, |f|);
    NewestInOrder(items, f);
  }

  /** From an empty start the digest has that shape and stays within the budget. */
  lemma DigestOldestFirst(items: seq<Msg>)
    ensures Digested(items, Gather(items, []).0, Gather(items, []).1)
    ensures |Join("\n", Gather(items, []).0)| <= BUDGET + 1
  {
    GatherTakesNewest(items, []);
    NewestReversed(items, Gather(items, []).0, Gather(items, []).1);
    GatherWithinBudget(items, []);
  }

  /** A user's log of recent messages, which the digest consumes. */
  class MessageLog {
    var items: seq<Msg>

    constructor (items0: seq<Msg>)
      ensures items == items0
    {
      items := items0;
    }

    /**
     * `get_latest_messages_embed`: None for an empty log; otherwise pops
     * newest-first until the budget is hit and describes the collected lines
     * oldest-first.
     */
    method LatestMessagesDescription() returns (desc: Option<string>)
      modifies this
      ensures |old(items)| == 0 ==> desc.None? && items == old(items)
      ensures |old(items)| > 0 ==>
        var (f, rem) := Gather(old(items), []);
        items == rem && desc == Some(HEADER + Join("\n", Reverse(f)))
    {
      if |items| == 0 {
        return None;
      }
      var formatted: seq<string> := [];
      ghost var start := items;
      while |items| > 0
        invariant Gather(start, []) == Gather(items, formatted)
        decreases |items|
      {
        var msg := items[|items| - 1];
        items := items[..|items| - 1];
        var result := Line(msg);
        if Overflows(formatted, result) {
          break;
        }
        formatted := formatted + [result];
      }
      desc := Some(HEADER + Join("\n", Reverse(formatted)));
    }
  }
}
