/** Pulls that run while transactions are open: a row that commits behind a mark is lost. */
module SettleWindow {
  import opened Prelude
  import opened Paging

  datatype Draft = Draft(body: string, cost: int)

  /** `updated_at` is the time a transaction started; its rows become visible only when it commits. */
  datatype Transaction = Transaction(start: nat, drafts: map<Key, Draft>)

  /** `reply` is a pull under way: the device as it will be once the answer arrives. */
  datatype World = World(
    clock: nat, open: map<Id, Transaction>, rows: Rows, device: Device, reply: Option<Device>)

  /** Time 0 is the origin mark, so nothing is written then. */
  const START := World(1, map[], map[], FRESH, None)

  datatype Step =
    | Wait(ticks: nat)
    | Begin(t: Id)
    | Write(t: Id, k: Key, draft: Draft)
    | Commit(t: Id)
    | Abort(t: Id)
    | Ask                                                              // a pull starts from the device's cursor
    | Query(table: Table, now: nat, limit: nat, seesCosts: bool)       // one of its page queries, stamped `now`
    | Deliver                                                          // the answer reaches the device
    | Lose                                                             // or never does
    | Restart                                                          // an unreadable cursor: all over again

  /** A row written by an open transaction is locked. A query's `now()` is fixed before it reads. */
  predicate Enabled(w: World, s: Step)
  {
    match s
    case Begin(t) => t !in w.open
    case Write(t, k, _) => t in w.open && forall u | u in w.open && u != t :: k !in w.open[u].drafts
    case Commit(t) => t in w.open
    case Abort(t) => t in w.open
    case Query(_, now, _, _) => w.reply.Some? && now <= w.clock
    case Deliver => w.reply.Some?
    case _ => true
  }

  function Committed(rows: Rows, t: Transaction): Rows
  {
    rows + map k | k in t.drafts :: Row(t.start, t.drafts[k].body, t.drafts[k].cost)
  }

  /** A commit shows every draft under the time its transaction started, and touches no other row. */
  lemma {:induction false} CommitShowsDrafts(rows: Rows, t: Transaction, k: Key)
    ensures k in Committed(rows, t) <==> k in rows || k in t.drafts
    ensures k in t.drafts ==>
      var row := Committed(rows, t)[k];
      row.at == t.start && row.body == t.drafts[k].body && row.cost == t.drafts[k].cost
    ensures k in rows && k !in t.drafts ==> Committed(rows, t)[k] == rows[k]
  {
  }

  function Do(w: World, window: nat, s: Step): World
  {
    if !Enabled(w, s) then w
    else
      match s
      case Wait(ticks) => w.(clock := w.clock + ticks)
      case Begin(t) => w.(open := w.open[t := Transaction(w.clock, map[])])
      case Write(t, k, draft) =>
        w.(open := w.open[t := w.open[t].(drafts := w.open[t].drafts[k := draft])])
      case Commit(t) => w.(open := w.open - {t}, rows := Committed(w.rows, w.open[t]))
      case Abort(t) => w.(open := w.open - {t})
      case Ask => w.(reply := Some(w.device))
      case Query(table, now, limit, seesCosts) =>
        w.(reply := Some(AfterPage(w.reply.value, w.rows, table, now, window, limit, seesCosts)))
      case Deliver => w.(device := w.reply.value, reply := None)
      case Lose => w.(reply := None)
      case Restart => w.(device := w.device.(marks := map[]), reply := None)
  }

  function Run(w: World, window: nat, steps: seq<Step>): World
    decreases |steps|
  {
    if steps == [] then w else Run(Do(w, window, steps[0]), window, steps[1..])
  }

  predicate OnTime(w: World, delay: nat, s: Step)
  {
    s.Commit? && s.t in w.open ==> w.clock <= w.open[s.t].start + delay
  }

  /** Every transaction that commits does so within `delay` of its start. */
  predicate Punctual(w: World, window: nat, delay: nat, steps: seq<Step>)
    decreases |steps|
  {
    steps == [] ||
    (OnTime(w, delay, steps[0]) && Punctual(Do(w, window, steps[0]), window, delay, steps[1..]))
  }

  // ----- Within the window nothing is lost -----

  ghost predicate Dated(w: World)
  {
    && w.clock >= 1
    && (forall t :: t in w.open ==> 1 <= w.open[t].start)
    && (forall k :: k in w.rows ==> 1 <= w.rows[k].at)
  }

  /** Every mark is still at the origin or older than the window. */
  ghost predicate Settled(d: Device, clock: nat, window: nat)
  {
    forall table :: MarkOf(d.marks, table) == ORIGIN || MarkOf(d.marks, table).at + window < clock
  }

  ghost predicate Sound(d: Device, w: World, window: nat, readers: set<bool>)
  {
    Lossless(d, w.rows, readers) && Settled(d, w.clock, window)
  }

  ghost predicate Safe(w: World, window: nat, readers: set<bool>)
  {
    Dated(w) && Sound(w.device, w, window, readers) && (w.reply.Some? ==> Sound(w.reply.value, w, window, readers))
  }

  /** A query is made for a reader of one of these kinds. A phone's kinds are as many as its permissions have been. */
  predicate AsksFor(s: Step, readers: set<bool>) { s.Query? ==> s.seesCosts in readers }

  ghost predicate AllAskFor(steps: seq<Step>, readers: set<bool>)
  {
    forall i :: 0 <= i < |steps| ==> AsksFor(steps[i], readers)
  }

  /** A punctual commit lands strictly above every mark. */
  lemma {:induction false} CommitKeepsSound(d: Device, w: World, window: nat, t: Id, readers: set<bool>)
    requires Dated(w) && Sound(d, w, window, readers) && t in w.open
    requires w.clock <= w.open[t].start + window
    ensures Lossless(d, Committed(w.rows, w.open[t]), readers)
  {
    var after := Committed(w.rows, w.open[t]);
    forall k | k in after && Passed(d, after, k) ensures Holds(d.copy, k, after[k], readers) {
      if k in w.open[t].drafts {
        assert false;
      } else {
        assert Passed(d, w.rows, k);
      }
    }
  }

  lemma {:induction false} QueryKeepsSound(d: Device, w: World, window: nat, s: Step, readers: set<bool>)
    requires Sound(d, w, window, readers) && s.Query? && s.now <= w.clock && AsksFor(s, readers)
    ensures Sound(AfterPage(d, w.rows, s.table, s.now, window, s.limit, s.seesCosts), w, window, readers)
  {
    PageKeepsLossless(d, w.rows, s.table, s.now, window, s.limit, s.seesCosts, readers);
    var after := AfterPage(d, w.rows, s.table, s.now, window, s.limit, s.seesCosts);
    forall table ensures MarkOf(after.marks, table) == ORIGIN || MarkOf(after.marks, table).at + window < w.clock {
      MarkIsSettled(d, w.rows, s.table, s.now, window, s.limit, s.seesCosts, table);
    }
  }

  lemma {:induction false} StepKeepsSafe(w: World, window: nat, s: Step, readers: set<bool>)
    requires Safe(w, window, readers)
    requires OnTime(w, window, s) && AsksFor(s, readers)
    ensures Safe(Do(w, window, s), window, readers)
  {
    if Enabled(w, s) {
      match s
      case Commit(t) =>
        CommitKeepsSound(w.device, w, window, t, readers);
        if w.reply.Some? { CommitKeepsSound(w.reply.value, w, window, t, readers); }
      case Query(_, _, _, _) => QueryKeepsSound(w.reply.value, w, window, s, readers);
      case Restart =>
        forall k | k in w.rows ensures !Passed(w.device.(marks := map[]), w.rows, k) { }
      case _ =>
    }
  }

  lemma {:induction false} RunKeepsSafe(w: World, window: nat, steps: seq<Step>, readers: set<bool>)
    requires Safe(w, window, readers) && Punctual(w, window, window, steps) && AllAskFor(steps, readers)
    ensures Safe(Run(w, window, steps), window, readers)
    decreases |steps|
  {
    if steps != [] {
      assert AsksFor(steps[0], readers);
      StepKeepsSafe(w, window, steps[0], readers);
      RunKeepsSafe(Do(w, window, steps[0]), window, steps[1..], readers);
    }
  }

  /** A phone whose reader stays of one kind holds each row it has passed exactly as that reader is shown it. */
  lemma {:induction false} CopyIsExact(window: nat, steps: seq<Step>, sees: bool, k: Key)
    requires Punctual(START, window, window, steps) && AllAskFor(steps, {sees})
    requires var w := Run(START, window, steps); k in w.rows && Passed(w.device, w.rows, k)
    ensures var w := Run(START, window, steps);
      k in w.device.copy && w.device.copy[k] == Shown(k, w.rows[k], sees)
  {
    RunKeepsSafe(START, window, steps, {sees});
  }

  lemma {:induction false} PunctualIsMonotone(w: World, window: nat, delay: nat, more: nat, steps: seq<Step>)
    requires Punctual(w, window, delay, steps) && delay <= more
    ensures Punctual(w, window, more, steps)
    decreases |steps|
  {
    if steps != [] {
      PunctualIsMonotone(Do(w, window, steps[0]), window, delay, more, steps[1..]);
    }
  }

  // ----- One commit later than the window loses a row -----

  const LATE := Key(Products, 1)
  const EARLY := Key(Products, 2)

  /** Two transactions start together; the one that holds the lower id commits after a pull. */
  function SlowCommit(window: nat, sees: bool): seq<Step>
  {
    [Begin(1), Begin(2), Write(1, LATE, Draft("", 0)), Write(2, EARLY, Draft("", 0)), Commit(2),
     Wait(window + 1), Ask, Query(Products, window + 2, 1, sees), Deliver, Commit(1)]
  }

  /** The world before each of those steps; in the last the device has passed the late row's position. */
  function Stage(window: nat, i: nat): World
    requires i <= 9
  {
    var late, early := map[LATE := Draft("", 0)], map[EARLY := Draft("", 0)];
    var rows := map[EARLY := Row(1, "", 0)];
    var first := Transaction(1, if i < 3 then map[] else late);
    var second := Transaction(1, if i < 4 then map[] else early);
    var pulled := Device(map[Products := Mark(1, 2)], rows);
    World(
      if i < 6 then 1 else window + 2,
      if i == 0 then map[] else if i == 1 || i > 4 then map[1 := first] else map[1 := first, 2 := second],
      if i < 5 then map[] else rows,
      if i < 9 then FRESH else pulled,
      if i == 7 then Some(FRESH) else if i == 8 then Some(pulled) else None)
  }

  lemma {:induction false} FirstPage(window: nat, sees: bool)
    ensures AfterPage(FRESH, map[EARLY := Row(1, "", 0)], Products, window + 2, window, 1, sees) ==
        Stage(window, 9).device
  {
    var rows := map[EARLY := Row(1, "", 0)];
    assert Pending(rows, Products, ORIGIN, window + 2, window) == {EARLY};
    assert InOrder(rows, {EARLY}, Products, 1) == [EARLY] + InOrder(rows, {EARLY} - {EARLY}, Products, 0);
    assert Upserted(map[], rows, [EARLY], sees) == rows;
  }

  lemma {:induction false} StageStep(window: nat, i: nat, sees: bool)
    requires i < 9
    ensures Do(Stage(window, i), window, SlowCommit(window, sees)[i]) == Stage(window, i + 1)
  {
    if i == 4 {
      assert Stage(window, 4).open - {2} == Stage(window, 5).open;
      assert Committed(map[], Stage(window, 4).open[2]) == Stage(window, 5).rows;
    } else if i == 7 {
      FirstPage(window, sees);
    }
  }

  lemma {:induction false} FromStage(window: nat, delay: nat, i: nat, sees: bool)
    requires delay > window && i <= 9
    ensures Run(Stage(window, i), window, SlowCommit(window, sees)[i..]) == Do(Stage(window, 9), window, Commit(1))
    ensures Punctual(Stage(window, i), window, delay, SlowCommit(window, sees)[i..])
    decreases 9 - i
  {
    var steps := SlowCommit(window, sees);
    assert steps[i..][0] == steps[i] && steps[i..][1..] == steps[i + 1..];
    if i == 9 {
      assert steps[10..] == [];
    } else {
      StageStep(window, i, sees);
      FromStage(window, delay, i + 1, sees);
    }
  }

  lemma {:induction false} SlowCommitLoses(window: nat, delay: nat, sees: bool, readers: set<bool>)
    requires delay > window
    ensures Punctual(START, window, delay, SlowCommit(window, sees)) && AllAskFor(SlowCommit(window, sees), {sees})
    ensures Lost(Run(START, window, SlowCommit(window, sees)), LATE, readers)
  {
    FromStage(window, delay, 0, sees);
    assert SlowCommit(window, sees)[0..] == SlowCommit(window, sees);
    assert Stage(window, 0) == START;
    var end := Do(Stage(window, 9), window, Commit(1));
    assert end.rows == map[LATE := Row(1, "", 0), EARLY := Row(1, "", 0)];
  }

  ghost predicate AlwaysLossless(window: nat, delay: nat, readers: set<bool>)
  {
    forall steps {:trigger Punctual(START, window, delay, steps)} ::
      Punctual(START, window, delay, steps) && AllAskFor(steps, readers) ==>
          Lossless(Run(START, window, steps).device, Run(START, window, steps).rows, readers)
  }

  /** For readers of any kinds, the window is exactly the longest commit delay under which no run loses a row. */
  lemma {:induction false} LosslessIffWithinWindow(window: nat, delay: nat, readers: set<bool>)
    requires true in readers || false in readers
    ensures AlwaysLossless(window, delay, readers) <==> delay <= window
  {
    if delay <= window {
      forall steps | Punctual(START, window, delay, steps) && AllAskFor(steps, readers)
        ensures Lossless(Run(START, window, steps).device, Run(START, window, steps).rows, readers)
      {
        PunctualIsMonotone(START, window, delay, window, steps);
        RunKeepsSafe(START, window, steps, readers);
      }
    } else {
      var sees := true in readers;
      var steps := SlowCommit(window, sees);
      SlowCommitLoses(window, delay, sees, readers);
      forall i | 0 <= i < |steps| ensures AsksFor(steps[i], readers) { assert AsksFor(steps[i], {sees}); }
      assert !Lossless(Run(START, window, steps).device, Run(START, window, steps).rows, readers);
    }
  }

  // ----- A lost row stays lost -----

  /** Passed, and not held in the current version: never delivered, or only an older version was. */
  ghost predicate Missed(d: Device, rows: Rows, k: Key, readers: set<bool>)
  {
    k in rows && Passed(d, rows, k) && !Holds(d.copy, k, rows[k], readers)
  }

  ghost predicate Lost(w: World, k: Key, readers: set<bool>)
  {
    && Missed(w.device, w.rows, k, readers)
    && (w.reply.Some? ==> Missed(w.reply.value, w.rows, k, readers))
    && (forall t :: t in w.open ==> k !in w.open[t].drafts)
  }

  predicate Touches(s: Step, k: Key)
  {
    s.Restart? || (s.Write? && s.k == k)
  }

  lemma {:induction false} QueryKeepsMissed(
      d: Device, rows: Rows, table: Table, now: nat, window: nat, limit: nat, seesCosts: bool, k: Key,
      readers: set<bool>)
    requires Missed(d, rows, k, readers)
    ensures Missed(AfterPage(d, rows, table, now, window, limit, seesCosts), rows, k, readers)
  {
    var keys := Pending(rows, table, MarkOf(d.marks, table), now, window);
    assert k !in keys;
    OrderedPrefix(rows, keys, table, limit);
    MarkIsSettled(d, rows, table, now, window, limit, seesCosts, k.table);
  }

  /** Until it is written again or the device starts over, no pull brings it back. */
  lemma {:induction false} LostForGood(w: World, window: nat, steps: seq<Step>, k: Key, readers: set<bool>)
    requires Lost(w, k, readers)
    requires forall i :: 0 <= i < |steps| ==> !Touches(steps[i], k)
    ensures Lost(Run(w, window, steps), k, readers)
    decreases |steps|
  {
    if steps != [] {
      var s := steps[0];
      if s.Query? && Enabled(w, s) {
        QueryKeepsMissed(w.reply.value, w.rows, s.table, s.now, window, s.limit, s.seesCosts, k, readers);
      }
      assert Lost(Do(w, window, s), k, readers);
      LostForGood(Do(w, window, s), window, steps[1..], k, readers);
    }
  }

  // ----- What staff without profit access are never sent -----

  /** No row of a withheld table, and no cost. */
  ghost predicate Hides(d: Device)
  {
    forall k | k in d.copy :: k.table != Expenses && k.table != Withdrawals && d.copy[k].cost == 0
  }

  lemma {:induction false} PageHides(d: Device, rows: Rows, table: Table, now: nat, window: nat, limit: nat)
    requires Hides(d)
    ensures Hides(AfterPage(d, rows, table, now, window, limit, false))
  {
    OrderedPrefix(rows, Pending(rows, table, MarkOf(d.marks, table), now, window), table, limit);
  }

  /** In every run of such pulls the phone's own copy holds nothing it may not show. */
  lemma {:induction false} CopyHidesCosts(w: World, window: nat, steps: seq<Step>)
    requires Hides(w.device) && (w.reply.Some? ==> Hides(w.reply.value))
    requires AllAskFor(steps, {false})
    ensures Hides(Run(w, window, steps).device)
    decreases |steps|
  {
    if steps != [] {
      var s := steps[0];
      assert AsksFor(s, {false});
      if s.Query? && Enabled(w, s) {
        PageHides(w.reply.value, w.rows, s.table, s.now, window, s.limit);
      }
      CopyHidesCosts(Do(w, window, s), window, steps[1..]);
    }
  }
}
