/**
 The worker's retention ring and draft context, against the log of committed
 rows. Each commit keeps them exact; a rebuild always finds the rows it needs.
 */
module ParkingRing {
  import opened Common
  import opened Parking

  /**
   What has happened to one request's worker: the rows committed since position
   base, the draft context built from them, and where the ring was last trimmed.
   */
  datatype History = History(base: int, log: seq<Row>, context: seq<Option<Row>>, trimmed: int)

  /** Context entries of the rows just committed: built from them, or not built yet. */
  function NewContext(values: seq<Row>, built: bool): (r: seq<Option<Row>>)
    ensures |r| == |values|
    ensures forall i :: 0 <= i < |r| ==> r[i] == if built then Some(values[i]) else None
  {
    if values == [] then []
    else NewContext(values[..|values| - 1], built) + [if built then Some(values[|values| - 1]) else None]
  }

  /** Position base + i rebuilt from the ring wherever it is one of the positions from lo on. */
  function Replayed(context: seq<Option<Row>>, base: int, rows: map<int, Row>, lo: int): (r: seq<Option<Row>>)
    ensures |r| == |context|
    ensures forall i :: 0 <= i < |r| ==>
      r[i] == if lo <= base + i && base + i in rows then Some(rows[base + i]) else context[i]
  {
    if context == [] then []
    else
      var i := |context| - 1;
      Replayed(context[..i], base, rows, lo) +
      [if lo <= base + i && base + i in rows then Some(rows[base + i]) else context[i]]
  }

  /** The history after the worker has committed values. */
  function Remember(c: Config, w: Worker, h: History, action: Action, values: seq<Row>): History {
    var end := w.computed + |values|;
    var log := h.log + values;
    if action == ParkStep && c.strategy == Deferred then
      History(h.base, log, h.context + NewContext(values, false), end)
    else if action == ParkStep || !NeedsReplay(c, w) then
      History(h.base, log, h.context + NewContext(values, true), h.trimmed)
    else
      RememberRebuild(c, w, h, values)
  }

  /** The history after a rebuild: the dirty positions are built from the ring. */
  function RememberRebuild(c: Config, w: Worker, h: History, values: seq<Row>): History {
    var end := w.computed + |values|;
    var rows := RingAfter(c, w.rows, w.computed, values);
    var context := Replayed(h.context + NewContext(values, false), h.base, rows, DirtyStart(c, w.materialized, end));
    History(h.base, h.log + values, context, end)
  }

  // ---------- The invariant ----------

  /** Position p was committed with row x; the log starts at position base. */
  ghost predicate Logged(log: seq<Row>, base: int, p: int, x: Row) {
    base <= p < base + |log| && log[p - base] == x
  }

  /** Every stored row is the committed row of its position. */
  ghost predicate SubLog(rows: map<int, Row>, base: int, log: seq<Row>) {
    forall p :: p in rows ==> Logged(log, base, p, rows[p])
  }

  ghost predicate Within(rows: map<int, Row>, lo: int, hi: int) {
    forall p :: p in rows ==> lo <= p < hi
  }

  ghost predicate Covers(rows: map<int, Row>, lo: int, hi: int) {
    forall p :: lo <= p < hi ==> p in rows
  }

  /** On [lo, hi) the context was built from the committed rows. */
  ghost predicate AgreeOn(context: seq<Option<Row>>, base: int, log: seq<Row>, lo: int, hi: int) {
    |context| == |log| &&
    forall i :: 0 <= i < |log| && lo <= base + i < hi ==> context[i] == Some(log[i])
  }

  /** The retention ring holds committed rows only, and enough of them to rebuild the live window. */
  ghost predicate Ring(c: Config, base: int, computed: int, log: seq<Row>, rows: map<int, Row>, m: int, trimmed: int) {
    && base <= m <= computed
    && computed == base + |log|
    && SubLog(rows, base, log)
    && Within(rows, trimmed - Capacity(c), trimmed)
    && (c.strategy == Eager ==> m == computed)
    && Covers(rows, Max(m, computed - Capacity(c)), computed)
  }

  ghost predicate RingOk(c: Config, w: Worker, h: History) {
    && ValidGeometry(c.window, c.slack, c.chunk)
    && w.materialized.Some?
    && Ring(c, h.base, w.computed, h.log, w.rows, w.materialized.value, h.trimmed)
  }

  /** First position of the live window ending at end, among the positions committed in this run. */
  function LiveStart(c: Config, base: int, end: int): int {
    Max(base, Max(0, end - c.window))
  }

  /** Every live-window position of the materialised prefix was built from its committed row. */
  ghost predicate ContextOk(c: Config, w: Worker, h: History) {
    w.materialized.Some? &&
    AgreeOn(h.context, h.base, h.log, LiveStart(c, h.base, w.materialized.value), w.materialized.value)
  }

  // ---------- How each piece changes ----------

  lemma {:induction false} RetainedRing(rows: map<int, Row>, log: seq<Row>, base: int, start: int, values: seq<Row>, from: int, span: int)
    requires SubLog(rows, base, log) && start == base + |log|
    requires 0 <= span
    requires Covers(rows, Max(from, start - span), start)
    ensures var end := start + |values|; var r := Retained(rows, start, values, end - span);
      SubLog(r, base, log + values) && Covers(r, Max(from, end - span), end) && Within(r, end - span, end)
  {
  }

  lemma {:induction false} RingAfterRetaining(c: Config, base: int, computed: int, log: seq<Row>, rows: map<int, Row>, m: int, trimmed: int, values: seq<Row>, m': int)
    requires Ring(c, base, computed, log, rows, m, trimmed) && Capacity(c) >= 0
    requires m' == computed + |values| || (m' == m && c.strategy == Deferred)
    ensures Ring(c, base, computed + |values|, log + values, RingAfter(c, rows, computed, values), m', computed + |values|)
  {
    RetainedRing(rows, log, base, computed, values, m, Capacity(c));
  }

  lemma {:induction false} RingAfterMaterializing(c: Config, base: int, computed: int, log: seq<Row>, rows: map<int, Row>, m: int, trimmed: int, values: seq<Row>)
    requires Ring(c, base, computed, log, rows, m, trimmed)
    ensures var end := computed + |values|; Ring(c, base, end, log + values, rows, end, trimmed)
  {
  }

  lemma {:induction false} AgreementGrows(context: seq<Option<Row>>, base: int, log: seq<Row>, values: seq<Row>, built: bool, lo: int, lo': int, hi: int)
    requires AgreeOn(context, base, log, lo, hi) && lo <= lo' && hi <= base + |log|
    ensures AgreeOn(context + NewContext(values, built), base, log + values, lo', hi)
    ensures built && hi == base + |log| ==> AgreeOn(context + NewContext(values, built), base, log + values, lo', hi + |values|)
  {
  }

  /** Replaying ring rows from dirty on makes the context agree with the log there. */
  lemma {:induction false} ReplayAgrees(context: seq<Option<Row>>, rows: map<int, Row>, base: int, log: seq<Row>, lo: int, from: int, dirty: int, end: int)
    requires SubLog(rows, base, log) && AgreeOn(context, base, log, lo, from)
    requires dirty <= Max(lo, from)
    requires Covers(rows, dirty, end)
    ensures AgreeOn(Replayed(context, base, rows, dirty), base, log, lo, end)
  {
  }

  /** The ring holds every dirty position once the rows of the current step have been retained. */
  lemma {:induction false} DirtyRangeIsHeld(c: Config, base: int, computed: int, log: seq<Row>, rows: map<int, Row>, m: Option<int>, trimmed: int, values: seq<Row>)
    requires ValidGeometry(c.window, c.slack, c.chunk)
    requires m.Some? && Ring(c, base, computed, log, rows, m.value, trimmed)
    ensures var end := computed + |values|; var r := RingAfter(c, rows, computed, values);
      SubLog(r, base, log + values) && Covers(r, DirtyStart(c, m, end), end)
  {
    RetainedRing(rows, log, base, computed, values, m.value, Capacity(c));
  }

  /** The context right after a rebuild from the ring r. */
  lemma {:induction false} ReplayedContext(c: Config, base: int, computed: int, log: seq<Row>, r: map<int, Row>, context: seq<Option<Row>>, m: Option<int>, values: seq<Row>)
    requires m.Some? && 1 <= c.window && base <= m.value <= computed == base + |log|
    requires AgreeOn(context, base, log, LiveStart(c, base, m.value), m.value)
    requires SubLog(r, base, log + values) && Covers(r, DirtyStart(c, m, computed + |values|), computed + |values|)
    ensures AgreeOn(Replayed(context + NewContext(values, false), base, r, DirtyStart(c, m, computed + |values|)),
                    base, log + values, LiveStart(c, base, computed + |values|), computed + |values|)
  {
    var end := computed + |values|;
    AgreementGrows(context, base, log, values, false, LiveStart(c, base, m.value), LiveStart(c, base, end), m.value);
    ReplayAgrees(context + NewContext(values, false), r, base, log + values,
                 LiveStart(c, base, end), m.value, DirtyStart(c, m, end), end);
  }

  // ---------- Commits ----------

  /** On a healthy ring a rebuild never misses a row, so every arming or active step drafts. */
  lemma {:induction false} RebuildFindsEveryRow(c: Config, w: Worker, h: History, action: Action, values: seq<Row>)
    requires RingOk(c, w, h) && |values| >= 1
    ensures Rebuild(c, w, action, values).1
  {
  }

  lemma {:induction false} ParkKeepsRing(c: Config, w: Worker, h: History, values: seq<Row>)
    requires RingOk(c, w, h)
    ensures RingOk(c, Commit(c, w, ParkStep, values).0, Remember(c, w, h, ParkStep, values))
  {
    var m := w.materialized.value;
    if c.strategy == Deferred {
      RingAfterRetaining(c, h.base, w.computed, h.log, w.rows, m, h.trimmed, values, m);
    } else {
      RingAfterMaterializing(c, h.base, w.computed, h.log, w.rows, m, h.trimmed, values);
    }
  }

  lemma {:induction false} ParkKeepsContext(c: Config, w: Worker, h: History, values: seq<Row>)
    requires RingOk(c, w, h) && ContextOk(c, w, h)
    ensures ContextOk(c, Commit(c, w, ParkStep, values).0, Remember(c, w, h, ParkStep, values))
  {
    var m := w.materialized.value;
    var m' := if c.strategy == Deferred then m else w.computed + |values|;
    AgreementGrows(h.context, h.base, h.log, values, c.strategy == Eager, LiveStart(c, h.base, m), LiveStart(c, h.base, m'), m);
  }

  lemma {:induction false} RebuildKeepsRing(c: Config, w: Worker, h: History, action: Action, values: seq<Row>)
    requires RingOk(c, w, h) && NeedsReplay(c, w) && action != ParkStep && |values| >= 1
    ensures RingOk(c, Rebuild(c, w, action, values).0, Remember(c, w, h, action, values))
  {
    var t := Rebuild(c, w, action, values).0;
    var r, end := RingAfter(c, w.rows, w.computed, values), w.computed + |values|;
    assert t.computed == end && t.materialized == Some(end) && t.rows == r by {
      RebuildFindsEveryRow(c, w, h, action, values);
    }
    RingAfterRetaining(c, h.base, w.computed, h.log, w.rows, w.materialized.value, h.trimmed, values, end);
  }

  lemma {:induction false} RebuildKeepsContext(c: Config, w: Worker, h: History, values: seq<Row>)
    requires RingOk(c, w, h) && ContextOk(c, w, h)
    ensures var h', end := RememberRebuild(c, w, h, values), w.computed + |values|;
      AgreeOn(h'.context, h'.base, h'.log, LiveStart(c, h'.base, end), end)
  {
    DirtyRangeIsHeld(c, h.base, w.computed, h.log, w.rows, w.materialized, h.trimmed, values);
    ReplayedContext(c, h.base, w.computed, h.log, RingAfter(c, w.rows, w.computed, values), h.context, w.materialized, values);
  }

  lemma {:induction false} DraftKeeps(c: Config, w: Worker, h: History, action: Action, values: seq<Row>)
    requires RingOk(c, w, h) && ContextOk(c, w, h) && !NeedsReplay(c, w) && action != ParkStep
    ensures RingOk(c, Commit(c, w, action, values).0, Remember(c, w, h, action, values))
    ensures ContextOk(c, Commit(c, w, action, values).0, Remember(c, w, h, action, values))
  {
    var end := w.computed + |values|;
    RingAfterMaterializing(c, h.base, w.computed, h.log, w.rows, w.computed, h.trimmed, values);
    AgreementGrows(h.context, h.base, h.log, values, true, LiveStart(c, h.base, w.computed), LiveStart(c, h.base, end), w.computed);
  }

  /** Every commit keeps ring and context exact; arming and active steps always draft for the new position. */
  lemma {:induction false} CommitKeeps(c: Config, w: Worker, h: History, action: Action, values: seq<Row>)
    requires RingOk(c, w, h) && ContextOk(c, w, h) && |values| >= 1
    ensures var (t, ready) := Commit(c, w, action, values); var h' := Remember(c, w, h, action, values);
      && RingOk(c, t, h') && ContextOk(c, t, h')
      && t.computed == w.computed + |values|
      && (ready <==> action != ParkStep)
      && (ready ==> t.proposalAnchor == Some(t.computed) && t.materialized == Some(t.computed))
  {
    if action == ParkStep {
      ParkKeepsRing(c, w, h, values);
      ParkKeepsContext(c, w, h, values);
    } else {
      if NeedsReplay(c, w) {
        RebuildKeepsRing(c, w, h, action, values);
        RebuildKeepsContext(c, w, h, values);
        RebuildFindsEveryRow(c, w, h, action, values);
      } else {
        DraftKeeps(c, w, h, action, values);
      }
    }
  }

  // ---------- What the ring promises ----------

  /** Stored rows are committed rows, so rejected rows never enter; there are at most window + slack of them. */
  lemma {:induction false} RingHoldsCommittedRows(c: Config, w: Worker, h: History)
    requires RingOk(c, w, h)
    ensures |h.log| == w.computed - h.base
    ensures forall p :: p in w.rows ==> h.base <= p < w.computed && w.rows[p] == h.log[p - h.base]
    ensures |w.rows| <= c.window + c.slack
  {
    forall p | p in w.rows ensures h.base <= p < w.computed && w.rows[p] == h.log[p - h.base] {
      assert Logged(h.log, h.base, p, w.rows[p]);
    }
    MapInRange(w.rows, h.trimmed - Capacity(c), h.trimmed);
  }

  /** Every live-window position committed in this run has context built from its committed row. */
  ghost predicate WindowBuilt(c: Config, w: Worker, h: History) {
    && |h.context| == |h.log|
    && forall i :: 0 <= i < |h.log| && Max(0, w.computed - c.window) <= h.base + i ==> h.context[i] == Some(h.log[i])
  }

  /**
   The rebuild report of the step from w to t covers exactly the positions of the
   live window that were not materialized, in chunks that are all full but the last.
   */
  ghost predicate RebuildExact(c: Config, w: Worker, t: Worker) {
    && Flatten(t.rebuildChunks) == t.rebuiltPositions
    && (forall k :: k in t.rebuildChunks ==> 1 <= |k| <= c.chunk)
    && (forall k :: 0 <= k < |t.rebuildChunks| - 1 ==> |t.rebuildChunks[k]| == c.chunk)
    && var materialized := match w.materialized case Some(m) => m case None => 0;
       t.rebuiltPositions ==
         if c.strategy == Deferred && w.materialized != Some(w.computed)
         then Range(Max(Max(0, t.computed - c.window), materialized), t.computed) else []
  }

  lemma {:induction false} DraftReport(c: Config, w: Worker, action: Action, values: seq<Row>)
    requires c.chunk >= 1 && action != ParkStep && Commit(c, w, action, values).1
    ensures RebuildExact(c, w, Commit(c, w, action, values).0)
  {
    var end := w.computed + |values|;
    var required := if NeedsReplay(c, w) then Range(DirtyStart(c, w.materialized, end), end) else [];
    var t := Commit(c, w, action, values).0;
    assert t.rebuiltPositions == required && t.rebuildChunks == Chunks(required, c.chunk) && t.computed == end;
    ChunksCoverExactly(required, c.chunk);
  }

  /** After every arming or active step the live window is built, and the report says exactly what was replayed. */
  lemma {:induction false} DraftBuildsWindow(c: Config, w: Worker, h: History, action: Action, values: seq<Row>)
    requires RingOk(c, w, h) && ContextOk(c, w, h) && |values| >= 1 && action != ParkStep
    ensures WindowBuilt(c, Commit(c, w, action, values).0, Remember(c, w, h, action, values))
    ensures RebuildExact(c, w, Commit(c, w, action, values).0)
  {
    CommitKeeps(c, w, h, action, values);
    DraftReport(c, w, action, values);
  }
}
