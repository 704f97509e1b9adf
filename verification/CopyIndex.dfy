/**
 CopyIndex of bench/copy_opportunity.py: per width a dictionary, an expiry queue
 and a watermark. After any extends it answers exactly what the exhaustive
 search answers, and its contents depend only on the history.
 */
module CopyIndex {
  import opened Common
  import opened CopySearch

  type Entry = (nat, seq<Token>)

  /** The queue holding the entries of positions [lo, hi), oldest first. */
  function QueueOf(h: seq<Token>, width: nat, lo: nat, hi: int): (q: seq<Entry>)
    requires hi <= lo || hi + width <= |h| + 1
    ensures |q| == Max(0, hi - lo)
    ensures forall i :: 0 <= i < |q| ==> q[i] == (lo + i, Key(h, lo + i, width))
    decreases hi - lo
  {
    if hi <= lo then [] else QueueOf(h, width, lo, hi - 1) + [(hi - 1, Key(h, hi - 1, width))]
  }

  /** The dictionary sending each key of positions [lo, hi) to its latest position. */
  function LatestOf(h: seq<Token>, width: nat, lo: nat, hi: int): map<seq<Token>, nat>
    requires hi <= lo || hi + width <= |h| + 1
    decreases hi - lo
  {
    if hi <= lo then map[] else LatestOf(h, width, lo, hi - 1)[Key(h, hi - 1, width) := hi - 1]
  }

  /** Looking a key up is searching backwards for it. */
  lemma {:induction false} LookupIsLastMatch(h: seq<Token>, width: nat, key: seq<Token>, lo: nat, hi: int)
    requires hi <= lo || hi + width <= |h| + 1
    ensures var m := LatestOf(h, width, lo, hi);
      LastMatch(h, width, key, lo, hi) == if key in m then Some(m[key]) else None
    decreases hi - lo
  {
    if hi > lo {
      LookupIsLastMatch(h, width, key, lo, hi - 1);
    }
  }

  /** Expiring position lo: its key goes unless a later occurrence has replaced it. */
  function Expire(m: map<seq<Token>, nat>, key: seq<Token>, p: nat): map<seq<Token>, nat> {
    if key in m && m[key] == p then m - {key} else m
  }

  lemma {:induction false} ExpireDropsOldest(h: seq<Token>, width: nat, lo: nat, hi: int)
    requires lo < hi && hi + width <= |h| + 1
    ensures LatestOf(h, width, lo + 1, hi) == Expire(LatestOf(h, width, lo, hi), Key(h, lo, width), lo)
    decreases hi - lo
  {
    if hi - 1 == lo {
      assert LatestOf(h, width, lo, lo) == map[];
    } else {
      ExpireDropsOldest(h, width, lo, hi - 1);
    }
  }

  lemma {:induction false} QueueKept(h: seq<Token>, tokens: seq<Token>, width: nat, lo: nat, hi: int)
    requires hi <= lo || hi + width <= |h| + 1
    ensures QueueOf(h + tokens, width, lo, hi) == QueueOf(h, width, lo, hi)
    decreases hi - lo
  {
    if hi > lo {
      QueueKept(h, tokens, width, lo, hi - 1);
      assert Key(h + tokens, hi - 1, width) == Key(h, hi - 1, width);
    }
  }

  lemma {:induction false} LatestKept(h: seq<Token>, tokens: seq<Token>, width: nat, lo: nat, hi: int)
    requires hi <= lo || hi + width <= |h| + 1
    ensures LatestOf(h + tokens, width, lo, hi) == LatestOf(h, width, lo, hi)
    decreases hi - lo
  {
    if hi > lo {
      LatestKept(h, tokens, width, lo, hi - 1);
      assert Key(h + tokens, hi - 1, width) == Key(h, hi - 1, width);
    }
  }

  /** Positions already indexed keep their keys when the history grows. */
  lemma {:induction false} ExtendingKeepsEntries(h: seq<Token>, tokens: seq<Token>, width: nat, lo: nat, hi: int)
    requires hi <= lo || hi + width <= |h| + 1
    ensures QueueOf(h + tokens, width, lo, hi) == QueueOf(h, width, lo, hi)
    ensures LatestOf(h + tokens, width, lo, hi) == LatestOf(h, width, lo, hi)
  {
    QueueKept(h, tokens, width, lo, hi);
    LatestKept(h, tokens, width, lo, hi);
  }

  /** Everything the index keeps for one width, when end tokens of h have been indexed. */
  ghost predicate WidthOk(h: seq<Token>, end: nat, width: nat, capacity: nat, lookback: nat,
                          position: int, latest: map<seq<Token>, nat>, queue: seq<Entry>)
    requires end <= |h| && width >= 1
  {
    var lo, hi := Cutoff(end, lookback), Limit(end, width, capacity);
    position == Max(lo, hi) && latest == LatestOf(h, width, lo, hi) && queue == QueueOf(h, width, lo, hi)
  }

  /** Drops the entries the lookback no longer reaches. */
  method ExpireOld(h: seq<Token>, width: nat, cutoff: nat, ghost from: nat, ghost hi: int,
                   latest: map<seq<Token>, nat>, queue: seq<Entry>)
    returns (latest': map<seq<Token>, nat>, queue': seq<Entry>)
    requires from <= cutoff && (hi <= from || hi + width <= |h| + 1)
    requires latest == LatestOf(h, width, from, hi) && queue == QueueOf(h, width, from, hi)
    ensures latest' == LatestOf(h, width, cutoff, hi) && queue' == QueueOf(h, width, cutoff, hi)
  {
    latest', queue' := latest, queue;
    ghost var lo := from;
    while queue' != [] && queue'[0].0 < cutoff
      invariant from <= lo <= cutoff
      invariant queue' == QueueOf(h, width, lo, hi) && latest' == LatestOf(h, width, lo, hi)
      decreases |queue'|
    {
      var (start, key) := queue'[0];
      ExpireDropsOldest(h, width, lo, hi);
      assert queue'[1..] == QueueOf(h, width, lo + 1, hi);
      queue' := queue'[1..];
      if key in latest' && latest'[key] == start {
        latest' := latest' - {key};
      }
      lo := lo + 1;
    }
  }

  /** Indexes the positions from start on that have become complete. */
  method IndexNew(h: seq<Token>, width: nat, start: nat, limit: int, ghost lo: nat,
                  latest: map<seq<Token>, nat>, queue: seq<Entry>)
    returns (latest': map<seq<Token>, nat>, queue': seq<Entry>)
    requires lo <= start && (limit <= start || limit + width <= |h| + 1)
    requires start + width <= |h| + 1 || limit <= start
    requires limit > start ==> latest == LatestOf(h, width, lo, start) && queue == QueueOf(h, width, lo, start)
    ensures if limit > start then latest' == LatestOf(h, width, lo, limit) && queue' == QueueOf(h, width, lo, limit)
            else latest' == latest && queue' == queue
  {
    latest', queue' := latest, queue;
    if start < limit {
      for p := start to limit
        invariant latest' == LatestOf(h, width, lo, p) && queue' == QueueOf(h, width, lo, p)
      {
        var key := h[p..p + width];
        latest' := latest'[key := p];
        queue' := queue' + [(p, key)];
      }
    }
  }

  /** One width's share of extend: expire, then index the newly complete positions. */
  method Advance(h: seq<Token>, width: nat, capacity: nat, lookback: nat,
                 position: int, latest: map<seq<Token>, nat>, queue: seq<Entry>, ghost before: nat)
    returns (position': int, latest': map<seq<Token>, nat>, queue': seq<Entry>)
    requires width >= 1 && before <= |h|
    requires WidthOk(h, before, width, capacity, lookback, position, latest, queue)
    ensures WidthOk(h, |h|, width, capacity, lookback, position', latest', queue')
  {
    var end := |h|;
    var cutoff := Max(0, end - lookback);
    ghost var hi := Limit(before, width, capacity);
    latest', queue' := ExpireOld(h, width, cutoff, Cutoff(before, lookback), hi, latest, queue);
    var start := Max(position, cutoff);
    var limit := end - width - capacity + 1;
    latest', queue' := IndexNew(h, width, start, limit, cutoff, latest', queue');
    position' := Max(start, limit);
  }

  // ---------- The object ----------

  class CopyIndex {
    const widths: seq<nat>
    const capacity: nat
    const lookback: nat
    var history: seq<Token>
    var positions: map<nat, int>
    var latest: map<nat, map<seq<Token>, nat>>
    var queues: map<nat, seq<Entry>>

    /** Width w has indexed the first end tokens of h. */
    ghost predicate Indexed(h: seq<Token>, end: nat, w: nat)
      requires end <= |h| && w >= 1
      reads this
    {
      w in positions && w in latest && w in queues &&
      WidthOk(h, end, w, capacity, lookback, positions[w], latest[w], queues[w])
    }

    ghost predicate PositiveWidths() { forall k :: 0 <= k < |widths| ==> widths[k] >= 1 }

    ghost predicate Valid()
      reads this
    {
      PositiveWidths() && forall k :: 0 <= k < |widths| ==> Indexed(history, |history|, widths[k])
    }

    constructor (widths: seq<nat>, capacity: nat, lookback: nat)
      requires forall k :: 0 <= k < |widths| ==> widths[k] >= 1
      ensures Valid() && history == []
      ensures this.widths == widths && this.capacity == capacity && this.lookback == lookback
    {
      this.widths, this.capacity, this.lookback := widths, capacity, lookback;
      history := [];
      positions := map w | w in widths :: 0;
      latest := map w | w in widths :: map[];
      queues := map w | w in widths :: [];
    }

    method AdvanceWidth(w: nat, ghost before: nat)
      requires w >= 1 && before <= |history| && Indexed(history, before, w)
      modifies `positions, `latest, `queues
      ensures Indexed(history, |history|, w)
      ensures forall v, end :: 0 <= end <= |history| && v >= 1 && v != w && old(Indexed(history, end, v)) ==> Indexed(history, end, v)
    {
      var p, l, q := Advance(history, w, capacity, lookback, positions[w], latest[w], queues[w], before);
      positions := positions[w := p];
      latest := latest[w := l];
      queues := queues[w := q];
    }

    method Extend(tokens: seq<Token>)
      requires Valid()
      modifies this
      ensures Valid() && history == old(history) + tokens
    {
      ghost var before := |history|;
      forall k | 0 <= k < |widths|
        ensures WidthOk(history + tokens, before, widths[k], capacity, lookback,
                        positions[widths[k]], latest[widths[k]], queues[widths[k]])
      {
        var w := widths[k];
        assert Indexed(history, before, w);
        ExtendingKeepsEntries(history, tokens, w, Cutoff(before, lookback), Limit(before, w, capacity));
      }
      history := history + tokens;
      for i := 0 to |widths|
        invariant history == old(history) + tokens
        invariant forall k :: 0 <= k < i ==> Indexed(history, |history|, widths[k])
        invariant forall k :: i <= k < |widths| ==> Indexed(history, |history|, widths[k]) || Indexed(history, before, widths[k])
      {
        AdvanceWidth(widths[i], if Indexed(history, |history|, widths[i]) then |history| else before);
      }
    }

    /** The dictionary's answer for one width. */
    method Lookup(w: nat) returns (r: Option<nat>)
      requires w >= 1 && Indexed(history, |history|, w) && |history| >= w + capacity
      ensures r == BestStart(history, w, capacity, lookback)
    {
      var key := history[|history| - w..];
      LookupIsLastMatch(history, w, key, Cutoff(|history|, lookback), Limit(|history|, w, capacity));
      if key in latest[w] { return Some(latest[w][key]); }
      return None;
    }

    /** The index answers exactly what the exhaustive search over the history answers. */
    method Propose() returns (candidate: seq<Token>, width: nat)
      requires Valid()
      ensures (candidate, width) == Proposal(history, widths, capacity, lookback)
    {
      for i := 0 to |widths|
        invariant Proposal(history, widths, capacity, lookback) == ProposalFrom(history, widths, capacity, lookback, i)
      {
        var w := widths[i];
        if |history| < w + capacity {
          assert BestStart(history, w, capacity, lookback) == None;
        } else {
          var start := Lookup(w);
          if start.Some? {
            return history[start.value + w..start.value + w + capacity], w;
          }
        }
      }
      return [], 0;
    }
  }

  /** How the history was cut into extends leaves no trace in any width's position, dictionary or queue. */
  lemma {:induction false} SameHistorySameIndex(a: CopyIndex, b: CopyIndex, k: nat)
    requires a.Valid() && b.Valid() && a.widths == b.widths && k < |a.widths|
    requires a.capacity == b.capacity && a.lookback == b.lookback && a.history == b.history
    ensures var w := a.widths[k];
      a.positions[w] == b.positions[w] && a.latest[w] == b.latest[w] && a.queues[w] == b.queues[w]
  {
    assert a.Indexed(a.history, |a.history|, a.widths[k]) && b.Indexed(b.history, |b.history|, b.widths[k]);
  }

  /** A queue never outgrows the part of the lookback that can hold a complete match. */
  lemma {:induction false} QueueBound(index: CopyIndex, k: nat)
    requires index.Valid() && k < |index.widths|
    ensures var w := index.widths[k];
      |index.queues[w]| <= Max(0, index.lookback - w - index.capacity + 1)
  {
    assert index.Indexed(index.history, |index.history|, index.widths[k]);
  }
}
