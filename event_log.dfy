/**
 * The on-screen event log of script.js:16-26: `prepend` puts each new entry at the
 * top, and when that makes the list longer than 20 the last (oldest) entry is
 * removed. Entries are kept abstract here; the dashboard instantiates them.
 */
module EventLog {

  /** The length above which `addEventToLog` removes the last entry. */
  const MAX_ENTRIES: nat := 20

  /** One call of `addEventToLog` on the list `log` (newest first). */
  function Prepend<T>(log: seq<T>, e: T): (r: seq<T>)
    ensures |r| >= 1 && r[0] == e
    ensures |log| < MAX_ENTRIES ==> r[1..] == log
    ensures |log| >= MAX_ENTRIES ==> r[1..] == log[..|log| - 1]
    ensures |log| <= MAX_ENTRIES ==> |r| <= MAX_ENTRIES
  {
    var grown := [e] + log;
    if |grown| > MAX_ENTRIES then grown[..|grown| - 1] else grown
  }

  /** Successive calls of `addEventToLog`, `es[0]` first. */
  function PrependAll<T>(log: seq<T>, es: seq<T>): (r: seq<T>)
    ensures es != [] ==> |r| >= 1 && r[0] == es[|es| - 1]
    ensures es == [] ==> r == log
    decreases |es|
  {
    if es == [] then log else PrependAll(Prepend(log, es[0]), es[1..])
  }

  function Reversed<T>(s: seq<T>): (r: seq<T>)
    ensures |r| == |s|
  {
    if s == [] then [] else Reversed(s[1..]) + [s[0]]
  }

  /** The first `MAX_ENTRIES` elements of `s`, or all of them if there are fewer. */
  function Newest<T>(s: seq<T>): (r: seq<T>)
    ensures |r| == if |s| <= MAX_ENTRIES then |s| else MAX_ENTRIES
    ensures r == s[..|r|]
  {
    if |s| <= MAX_ENTRIES then s else s[..MAX_ENTRIES]
  }

  /** Cutting before or after putting entries in front gives the same newest entries. */
  lemma NewestOfFront<T>(front: seq<T>, s: seq<T>)
    ensures Newest(front + Newest(s)) == Newest(front + s)
  {
    if |s| > MAX_ENTRIES {
      var a, b := Newest(front + Newest(s)), Newest(front + s);
      assert |a| == |b| == MAX_ENTRIES;
      forall i | 0 <= i < MAX_ENTRIES ensures a[i] == b[i] {
        if i < |front| {
          assert a[i] == front[i] == b[i];
        } else {
          assert a[i] == s[i - |front|] == b[i];
        }
      }
    }
  }

  /** On a log of at most 20 entries, one addition keeps the 20 newest. */
  lemma PrependIsNewest<T>(log: seq<T>, e: T)
    requires |log| <= MAX_ENTRIES
    ensures Prepend(log, e) == Newest([e] + log)
  {
  }

  lemma ReversedFront<T>(es: seq<T>, log: seq<T>)
    requires es != []
    ensures Reversed(es) + log == Reversed(es[1..]) + ([es[0]] + log)
  {
    var front := Reversed(es[1..]);
    assert Reversed(es) == front + [es[0]];
    assert (front + [es[0]]) + log == front + ([es[0]] + log);
  }

  /** Logging the entries `es` one by one on a log of at most 20 entries leaves the
      20 most recent entries of all, newest first: the new ones in reverse order of
      arrival, then the old ones in their old order. */
  lemma {:induction false} PrependAllKeepsNewest<T>(log: seq<T>, es: seq<T>)
    requires |log| <= MAX_ENTRIES
    ensures PrependAll(log, es) == Newest(Reversed(es) + log)
    decreases |es|
  {
    if es == [] {
      assert Reversed(es) + log == log;
    } else {
      var e, rest := es[0], es[1..];
      var once := Prepend(log, e);
      PrependIsNewest(log, e);
      PrependAllKeepsNewest(once, rest);
      NewestOfFront(Reversed(rest), [e] + log);
      ReversedFront(es, log);
    }
  }

  /** The log never holds more than 20 entries once it starts with at most 20. */
  lemma {:induction false} PrependAllBounded<T>(log: seq<T>, es: seq<T>)
    requires |log| <= MAX_ENTRIES
    ensures |PrependAll(log, es)| <= MAX_ENTRIES
    ensures |PrependAll(log, es)| == if |log| + |es| <= MAX_ENTRIES then |log| + |es| else MAX_ENTRIES
  {
    PrependAllKeepsNewest(log, es);
  }
}
