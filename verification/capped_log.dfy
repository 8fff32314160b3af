/**
 * Newest-first logs with a fixed capacity: each new entry is inserted at index 0 and,
 * when the log grows past the capacity, only the first `cap` entries are kept.
 * The navigation log of the debugger (capacity 1000) and the operations log of the
 * validating view (capacity 100) both work this way.
 */
module CappedLog {

  function Min(a: int, b: int): int {
    if a <= b then a else b
  }

  /** `log.insert(entry, at: 0)`, then `Array(log.prefix(cap))` when `log.count > cap`. */
  function Prepend<T>(log: seq<T>, entry: T, cap: nat): (r: seq<T>)
    ensures |r| == Min(|log| + 1, cap)
    ensures |r| > 0 ==> r[0] == entry && r[1..] == log[..|r| - 1]
  {
    var inserted := [entry] + log;
    if |inserted| > cap then inserted[..cap] else inserted
  }

  /** Inserting each of `entries` in turn, oldest first. */
  function PrependAll<T>(log: seq<T>, entries: seq<T>, cap: nat): seq<T>
    decreases |entries|
  {
    if entries == [] then log else PrependAll(Prepend(log, entries[0], cap), entries[1..], cap)
  }

  function Reversed<T>(s: seq<T>): (r: seq<T>)
    ensures |r| == |s|
    ensures forall k :: 0 <= k < |s| ==> r[k] == s[|s| - 1 - k]
  {
    if s == [] then [] else Reversed(s[1..]) + [s[0]]
  }

  /** Inserting `a` and then `b` is inserting `a + b`. */
  lemma {:induction false} PrependAllConcat<T>(log: seq<T>, a: seq<T>, b: seq<T>, cap: nat)
    ensures PrependAll(log, a + b, cap) == PrependAll(PrependAll(log, a, cap), b, cap)
    decreases |a|
  {
    if a != [] {
      assert (a + b)[0] == a[0] && (a + b)[1..] == a[1..] + b;
      PrependAllConcat(Prepend(log, a[0], cap), a[1..], b, cap);
    } else {
      assert a + b == b;
    }
  }

  /** Inserting `entries` and then `e` is inserting `entries + [e]`. */
  lemma PrependAllSnoc<T>(log: seq<T>, entries: seq<T>, e: T, cap: nat)
    ensures PrependAll(log, entries + [e], cap) == Prepend(PrependAll(log, entries, cap), e, cap)
  {
    PrependAllConcat(log, entries, [e], cap);
    assert [e][1..] == [];
  }

  /** Logging a run of entries one more entry at a time. */
  lemma PrependAllPrefix<T>(log: seq<T>, entries: seq<T>, i: nat, cap: nat)
    requires i < |entries|
    ensures PrependAll(log, entries[..i + 1], cap) == Prepend(PrependAll(log, entries[..i], cap), entries[i], cap)
  {
    PrependAllSnoc(log, entries[..i], entries[i], cap);
    assert entries[..i] + [entries[i]] == entries[..i + 1];
  }

  lemma TruncatedPrefix<T>(a: seq<T>, b: seq<T>, k: nat, m: nat)
    requires k <= |b| && m <= |a| + k
    ensures (a + b[..k])[..m] == (a + b)[..m]
  {
    assert forall i :: 0 <= i < m ==> (a + b[..k])[i] == (a + b)[i];
  }

  /**
   * A log that starts within its capacity holds, after any run of insertions, the
   * newest entries first: the inserted entries in reverse order followed by the old
   * log, cut to the capacity. So the oldest entries are the ones evicted.
   */
  lemma {:induction false} PrependAllNewestFirst<T>(log: seq<T>, entries: seq<T>, cap: nat)
    requires |log| <= cap
    ensures PrependAll(log, entries, cap) == (Reversed(entries) + log)[..Min(|entries| + |log|, cap)]
    decreases |entries|
  {
    if entries == [] {
      assert Reversed(entries) + log == log;
    } else {
      var e, rest := entries[0], entries[1..];
      var once := Prepend(log, e, cap);
      PrependAllNewestFirst(once, rest, cap);
      assert entries == [e] + rest;
      assert Reversed(entries) == Reversed(rest) + [e];
      assert once == ([e] + log)[..|once|];
      TruncatedPrefix(Reversed(rest), [e] + log, |once|, Min(|rest| + |once|, cap));
      assert Reversed(rest) + ([e] + log) == Reversed(entries) + log;
    }
  }

  /**
   * A full log that receives one more entry keeps its size, has the new entry first
   * and loses its oldest entry.
   */
  lemma FullLogEvictsOldest<T>(log: seq<T>, entry: T, cap: nat)
    requires cap > 0 && |log| == cap
    ensures Prepend(log, entry, cap) == [entry] + log[..cap - 1]
  {
  }
}
