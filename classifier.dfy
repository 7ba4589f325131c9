/**
 * The per-line body of the serial reader thread (`read_serial_data`): one
 * stripped line becomes a sequence of tagged message-queue items, and the
 * reader's copy of `total_devices` may be overwritten on the way.
 */
module Classifier {
  import opened Wrappers
  import opened Text

  /** One tagged entry of the reader-to-GUI message queue. */
  datatype Item =
    | Receive(line: string)        // ('receive', line)
    | DeviceCount(count: nat)      // ('device_count', n)
    | InitComplete                 // ('init_complete', True)
    | MasterStarted                // ('master_started', True)
    | DeviceInitialized(id: nat)   // ('device_initialized', id)
    | SystemState(word: string)    // ('system_state', word)
    | Error(text: string)          // ('error', text)

  /** What one line produces: the items to enqueue, in order, and the new `total_devices`. */
  datatype Classified = Classified(items: seq<Item>, total: nat)

  /** `Total [Dd]evices:` */
  const TotalEitherCase: Marker := ["Total devices:", "Total Devices:"]
  /** `Total devices:` */
  const TotalLower: Marker := ["Total devices:"]
  /** `ID:` */
  const IdMarker: Marker := ["ID:"]
  /** `Current State:` */
  const StateMarker: Marker := ["Current State:"]

  /** The device-count check: either spelling of the marker, then the
      leftmost `Total [Dd]evices:\s*(\d+)`. */
  function CountStep(line: string, total: nat): (r: Classified)
    ensures r.items == [] ==> r.total == total
    ensures r.items != [] ==> r.items == [DeviceCount(r.total)]
    ensures r.items != [] ==> SearchNumber(line, TotalEitherCase) == Some(r.total)
  {
    if Contains(line, "Total devices:") || Contains(line, "Total Devices:") then
      match SearchNumber(line, TotalEitherCase)
      case Some(n) => Classified([DeviceCount(n)], n)
      case None => Classified([], total)
    else
      Classified([], total)
  }

  /** The initialization-complete check: both phrases, then the leftmost
      `Total devices:\s*(\d+)` (lower-case only). */
  function InitStep(line: string, total: nat): (r: Classified)
    ensures r.items == [] ==> r.total == total
    ensures r.items != [] ==> r.items == [DeviceCount(r.total), InitComplete]
    ensures r.items != [] ==> SearchNumber(line, TotalLower) == Some(r.total)
  {
    if Contains(line, "Initialization complete") && Contains(line, "Total devices:") then
      match SearchNumber(line, TotalLower)
      case Some(n) => Classified([DeviceCount(n), InitComplete], n)
      case None => Classified([], total)
    else
      Classified([], total)
  }

  function MasterStep(line: string): (r: seq<Item>)
    ensures r == [] || r == [MasterStarted]
  {
    if Contains(line, "Round Robin Master Started") then [MasterStarted] else []
  }

  /** The device-id check: the phrase, then the leftmost `ID:\s*(\d+)` anywhere in the line. */
  function DeviceIdStep(line: string): (r: seq<Item>)
    ensures r == [] || (|r| == 1 && r[0].DeviceInitialized?)
  {
    if Contains(line, "Device initialized as ID:") then
      match SearchNumber(line, IdMarker)
      case Some(id) => [DeviceInitialized(id)]
      case None => []
    else
      []
  }

  function StateStep(line: string): (r: seq<Item>)
    ensures r == [] || (|r| == 1 && r[0].SystemState?)
  {
    if Contains(line, "Current State:") then
      match Search(line, StateMarker, Word)
      case Some(w) => [SystemState(w)]
      case None => []
    else
      []
  }

  /** The queue items of a non-empty line: the echo, then the derived items of
      each check in the order the checks run; the new total is the one left by
      the last check that wrote it. */
  function Assemble(line: string, c: Classified, n: Classified,
                    m: seq<Item>, d: seq<Item>, st: seq<Item>): Classified {
    Classified([Receive(line)] + (c.items + (n.items + (m + (d + st)))), n.total)
  }

  /** Classifies one line that has already been stripped. An empty line
      enqueues nothing; any other line is echoed as a Receive item first. */
  function Classify(line: string, total: nat): (r: Classified)
    ensures line == [] ==> r == Classified([], total)
    ensures line != [] ==> r.items != [] && r.items[0] == Receive(line)
  {
    if line == [] then
      Classified([], total)
    else
      var c := CountStep(line, total);
      Assemble(line, c, InitStep(line, c.total), MasterStep(line), DeviceIdStep(line), StateStep(line))
  }

  /** One reader iteration on a decoded line: strip it, then classify it. */
  function ReadLine(raw: string, total: nat): Classified {
    Classify(Strip(raw), total)
  }

  // ---------------------------------------------------------------------
  // What each check contributes
  // ---------------------------------------------------------------------

  /** The device-count check fires exactly when `Total [Dd]evices:\s*\d` occurs
      somewhere (the substring pre-test never rejects a line the search would
      accept), and then reports the number after the leftmost such occurrence. */
  lemma CountStepSpec(line: string, total: nat)
    ensures CountStep(line, total).items != [] <==> exists k :: MatchAt(line, TotalEitherCase, Digit, k)
    ensures CountStep(line, total).items != [] ==>
              exists k :: FirstMatch(line, TotalEitherCase, Digit, k) &&
                          CountStep(line, total).total == DigitsToNat(Group(line, TotalEitherCase, Digit, k))
  {
    if k :| MatchAt(line, TotalEitherCase, Digit, k) {
      MarkerAtContains(line, TotalEitherCase, k);
    }
  }

  /** The init-complete check fires exactly when the line says "Initialization complete"
      and `Total devices:\s*\d` (lower-case d) occurs, and reports the number after the
      leftmost lower-case occurrence. */
  lemma InitStepSpec(line: string, total: nat)
    ensures InitStep(line, total).items != [] <==>
              Contains(line, "Initialization complete") && exists k :: MatchAt(line, TotalLower, Digit, k)
    ensures InitStep(line, total).items != [] ==>
              exists k :: FirstMatch(line, TotalLower, Digit, k) &&
                          InitStep(line, total).total == DigitsToNat(Group(line, TotalLower, Digit, k))
  {
    if k :| MatchAt(line, TotalLower, Digit, k) {
      MarkerAtContains(line, TotalLower, k);
    }
  }

  /** The device-id check needs the phrase and a number after some "ID:"; the number is
      taken after the leftmost "ID:" followed by digits, which need not be the phrase's own. */
  lemma DeviceIdStepSpec(line: string)
    ensures DeviceIdStep(line) != [] <==>
              Contains(line, "Device initialized as ID:") && exists k :: MatchAt(line, IdMarker, Digit, k)
    ensures DeviceIdStep(line) != [] ==>
              exists k :: FirstMatch(line, IdMarker, Digit, k) &&
                          DeviceIdStep(line) == [DeviceInitialized(DigitsToNat(Group(line, IdMarker, Digit, k)))]
  {
  }

  /** The state check needs "Current State:" followed by a word character, and reports
      the maximal run of word characters there. */
  lemma StateStepSpec(line: string)
    ensures StateStep(line) != [] <==> exists k :: MatchAt(line, StateMarker, Word, k)
    ensures StateStep(line) != [] ==>
              exists k :: FirstMatch(line, StateMarker, Word, k) &&
                          StateStep(line) == [SystemState(Group(line, StateMarker, Word, k))]
  {
    if k :| MatchAt(line, StateMarker, Word, k) {
      MarkerAtContains(line, StateMarker, k);
    }
  }

  // ---------------------------------------------------------------------
  // Properties of a whole line
  // ---------------------------------------------------------------------

  /** The position of each kind of item in the order of the checks. */
  function Rank(it: Item): nat {
    match it
    case Receive(_) => 0
    case DeviceCount(_) => 1
    case InitComplete => 2
    case MasterStarted => 3
    case DeviceInitialized(_) => 4
    case SystemState(_) => 5
    case Error(_) => 6
  }

  predicate RankSorted(items: seq<Item>) {
    forall i, j :: 0 <= i < j < |items| ==> Rank(items[i]) <= Rank(items[j])
  }

  /** k is the position of the last DeviceCount item of items. */
  predicate IsLastCount(items: seq<Item>, k: int) {
    0 <= k < |items| && items[k].DeviceCount? &&
    forall j :: k < j < |items| ==> !items[j].DeviceCount?
  }

  predicate NoCount(items: seq<Item>) {
    forall x :: x in items ==> !x.DeviceCount?
  }

  /** The shapes the five checks can produce. */
  predicate StepShapes(total: nat, c: Classified, n: Classified, m: seq<Item>, d: seq<Item>, st: seq<Item>) {
    (c.items == [] ==> c.total == total) &&
    (c.items != [] ==> c.items == [DeviceCount(c.total)]) &&
    (n.items == [] ==> n.total == c.total) &&
    (n.items != [] ==> n.items == [DeviceCount(n.total), InitComplete]) &&
    (m == [] || m == [MasterStarted]) &&
    (d == [] || (|d| == 1 && d[0].DeviceInitialized?)) &&
    (st == [] || (|st| == 1 && st[0].SystemState?))
  }

  lemma ClassifyShapes(line: string, total: nat)
    requires line != []
    ensures var c := CountStep(line, total);
            StepShapes(total, c, InitStep(line, c.total), MasterStep(line), DeviceIdStep(line), StateStep(line))
  {
  }

  predicate RanksWithin(items: seq<Item>, lo: nat, hi: nat) {
    forall x :: x in items ==> lo <= Rank(x) <= hi
  }

  lemma SortedAppend(a: seq<Item>, b: seq<Item>, lo: nat, mid: nat, hi: nat)
    requires RankSorted(a) && RanksWithin(a, lo, mid)
    requires RankSorted(b) && RanksWithin(b, mid, hi)
    requires lo <= mid <= hi
    ensures RankSorted(a + b) && RanksWithin(a + b, lo, hi)
  {
    var ab := a + b;
    forall i, j | 0 <= i < j < |ab| ensures Rank(ab[i]) <= Rank(ab[j]) {
      if i < |a| && j >= |a| {
        assert ab[i] in a && ab[j] in b;
      }
    }
  }

  lemma FlatSorted(a: seq<Item>, r: nat)
    requires RanksWithin(a, r, r)
    ensures RankSorted(a)
  {
    forall i, j | 0 <= i < j < |a| ensures Rank(a[i]) <= Rank(a[j]) {
      assert a[i] in a && a[j] in a;
    }
  }

  /** The ranks each check's items occupy. */
  lemma ShapeRanks(total: nat, c: Classified, n: Classified, m: seq<Item>, d: seq<Item>, st: seq<Item>)
    requires StepShapes(total, c, n, m, d, st)
    ensures RanksWithin(c.items, 1, 1) && RankSorted(n.items) && RanksWithin(n.items, 1, 2)
    ensures RanksWithin(m, 3, 3) && RanksWithin(d, 4, 4) && RanksWithin(st, 5, 5)
  {
  }

  lemma AssembleOrder(line: string, c: seq<Item>, n: seq<Item>, m: seq<Item>, d: seq<Item>, st: seq<Item>)
    requires RanksWithin(c, 1, 1) && RankSorted(n) && RanksWithin(n, 1, 2)
    requires RanksWithin(m, 3, 3) && RanksWithin(d, 4, 4) && RanksWithin(st, 5, 5)
    ensures RankSorted([Receive(line)] + (c + (n + (m + (d + st)))))
    ensures RanksWithin(c + (n + (m + (d + st))), 1, 5)
  {
    FlatSorted(c, 1);
    FlatSorted(m, 3);
    FlatSorted(d, 4);
    FlatSorted(st, 5);
    FlatSorted([Receive(line)], 0);
    SortedAppend(d, st, 4, 4, 5);
    SortedAppend(m, d + st, 3, 3, 5);
    SortedAppend(n, m + (d + st), 1, 2, 5);
    SortedAppend(c, n + (m + (d + st)), 1, 1, 5);
    SortedAppend([Receive(line)], c + (n + (m + (d + st))), 0, 0, 5);
  }

  /** Only the first item echoes the line; every later item is derived, and the
      derived items come in the order of the checks: device counts, init-complete,
      master-started, device-initialized, system state. */
  lemma {:induction false} ClassifyOrder(line: string, total: nat)
    requires line != []
    ensures RankSorted(Classify(line, total).items)
    ensures RanksWithin(Classify(line, total).items[1..], 1, 5)
  {
    var c := CountStep(line, total);
    var n := InitStep(line, c.total);
    ClassifyShapes(line, total);
    ShapeRanks(total, c, n, MasterStep(line), DeviceIdStep(line), StateStep(line));
    AssembleOrder(line, c.items, n.items, MasterStep(line), DeviceIdStep(line), StateStep(line));
    assert Classify(line, total).items[1..] == c.items + (n.items + (MasterStep(line) + (DeviceIdStep(line) + StateStep(line))));
  }

  lemma AssembleTotal(line: string, total: nat, c: Classified, n: Classified, m: seq<Item>, d: seq<Item>, st: seq<Item>)
    requires StepShapes(total, c, n, m, d, st)
    ensures var r := Assemble(line, c, n, m, d, st);
            (NoCount(r.items) ==> r.total == total) &&
            forall k :: IsLastCount(r.items, k) ==> r.total == r.items[k].count
  {
    var items := Assemble(line, c, n, m, d, st).items;
    assert NoCount(m + (d + st));
    if n.items != [] {
      assert IsLastCount(items, 1 + |c.items|);
    } else if c.items != [] {
      assert IsLastCount(items, 1);
    }
  }

  /** The reader's total_devices ends at the last DeviceCount item the line enqueued,
      and is untouched when it enqueued none. */
  lemma ClassifyTotal(line: string, total: nat)
    ensures NoCount(Classify(line, total).items) ==> Classify(line, total).total == total
    ensures forall k :: IsLastCount(Classify(line, total).items, k) ==>
              Classify(line, total).total == Classify(line, total).items[k].count
  {
    if line != [] {
      var c := CountStep(line, total);
      ClassifyShapes(line, total);
      AssembleTotal(line, total, c, InitStep(line, c.total), MasterStep(line), DeviceIdStep(line), StateStep(line));
    }
  }

  predicate HasRank(items: seq<Item>, r: nat) {
    exists x :: x in items && Rank(x) == r
  }

  /** A kind of item is in the assembled list exactly when it is in one of the pieces. */
  lemma HasRankAssembled(line: string, c: seq<Item>, n: seq<Item>, m: seq<Item>, d: seq<Item>, st: seq<Item>, r: nat)
    requires r > 0
    ensures HasRank([Receive(line)] + (c + (n + (m + (d + st)))), r) <==>
            HasRank(c, r) || HasRank(n, r) || HasRank(m, r) || HasRank(d, r) || HasRank(st, r)
  {
    var items := [Receive(line)] + (c + (n + (m + (d + st))));
    if HasRank(items, r) {
      var x :| x in items && Rank(x) == r;
      assert x in c || x in n || x in m || x in d || x in st;
    }
    if HasRank(c, r) { var x :| x in c && Rank(x) == r; assert x in items; }
    if HasRank(n, r) { var x :| x in n && Rank(x) == r; assert x in items; }
    if HasRank(m, r) { var x :| x in m && Rank(x) == r; assert x in items; }
    if HasRank(d, r) { var x :| x in d && Rank(x) == r; assert x in items; }
    if HasRank(st, r) { var x :| x in st && Rank(x) == r; assert x in items; }
  }

  lemma HasRankIff(items: seq<Item>)
    ensures HasRank(items, 1) <==> exists x :: x in items && x.DeviceCount?
    ensures HasRank(items, 2) <==> InitComplete in items
    ensures HasRank(items, 3) <==> MasterStarted in items
    ensures HasRank(items, 4) <==> exists x :: x in items && x.DeviceInitialized?
    ensures HasRank(items, 5) <==> exists x :: x in items && x.SystemState?
  {
  }

  lemma AssembleKinds(total: nat, c: Classified, n: Classified, m: seq<Item>, d: seq<Item>, st: seq<Item>)
    requires StepShapes(total, c, n, m, d, st)
    ensures HasRank(c.items, 1) || HasRank(n.items, 1) <==> c.items != [] || n.items != []
    ensures !HasRank(c.items, 2) && (HasRank(n.items, 2) <==> n.items != [])
    ensures !HasRank(c.items, 3) && !HasRank(n.items, 3) && (HasRank(m, 3) <==> m != []) && !HasRank(d, 3) && !HasRank(st, 3)
    ensures !HasRank(c.items, 4) && !HasRank(n.items, 4) && !HasRank(m, 4) && (HasRank(d, 4) <==> d != []) && !HasRank(st, 4)
    ensures !HasRank(c.items, 5) && !HasRank(n.items, 5) && !HasRank(m, 5) && !HasRank(d, 5) && (HasRank(st, 5) <==> st != [])
    ensures !HasRank(m, 1) && !HasRank(d, 1) && !HasRank(st, 1) && !HasRank(m, 2) && !HasRank(d, 2) && !HasRank(st, 2)
  {
    if c.items != [] { assert c.items[0] in c.items; }
    if n.items != [] { assert n.items[0] in n.items && n.items[1] in n.items; }
    if m != [] { assert m[0] in m; }
    if d != [] { assert d[0] in d; }
    if st != [] { assert st[0] in st; }
  }

  /** Which checks contributed, read off the kinds of item in the line's list. */
  lemma ClassifyRanks(line: string, total: nat)
    requires line != []
    ensures var c := CountStep(line, total);
            var n := InitStep(line, c.total);
            var items := Classify(line, total).items;
            (HasRank(items, 1) <==> c.items != [] || n.items != []) &&
            (HasRank(items, 2) <==> n.items != []) &&
            (HasRank(items, 3) <==> MasterStep(line) != []) &&
            (HasRank(items, 4) <==> DeviceIdStep(line) != []) &&
            (HasRank(items, 5) <==> StateStep(line) != [])
  {
    var c := CountStep(line, total);
    var n := InitStep(line, c.total);
    var items := Classify(line, total).items;
    ClassifyShapes(line, total);
    AssembleKinds(total, c, n, MasterStep(line), DeviceIdStep(line), StateStep(line));
    forall r: nat | 1 <= r <= 5
      ensures HasRank(items, r) <==> HasRank(c.items, r) || HasRank(n.items, r) || HasRank(MasterStep(line), r) ||
                                     HasRank(DeviceIdStep(line), r) || HasRank(StateStep(line), r)
    {
      HasRankAssembled(line, c.items, n.items, MasterStep(line), DeviceIdStep(line), StateStep(line), r);
    }
  }

  /** The counting items appear exactly when their checks fire: a device count when
      `Total [Dd]evices:` is followed by a digit somewhere, an init-complete notice when
      moreover the line says "Initialization complete" and the lower-case marker is
      followed by a digit. */
  lemma {:induction false} ClassifyCountKinds(line: string, total: nat)
    requires line != []
    ensures var items := Classify(line, total).items;
            (InitComplete in items <==>
               Contains(line, "Initialization complete") && exists k :: MatchAt(line, TotalLower, Digit, k)) &&
            ((exists x :: x in items && x.DeviceCount?) <==> exists k :: MatchAt(line, TotalEitherCase, Digit, k))
  {
    var c := CountStep(line, total);
    var n := InitStep(line, c.total);
    var items := Classify(line, total).items;
    ClassifyRanks(line, total);
    HasRankIff(items);
    var either := exists k :: MatchAt(line, TotalEitherCase, Digit, k);
    var lower := exists k :: MatchAt(line, TotalLower, Digit, k);
    assert c.items != [] <==> either by { CountStepSpec(line, total); }
    assert n.items != [] <==> Contains(line, "Initialization complete") && lower by { InitStepSpec(line, c.total); }
    LowerIsEither(line);
  }

  lemma LowerIsEither(line: string)
    ensures (exists k :: MatchAt(line, TotalLower, Digit, k)) ==> exists k :: MatchAt(line, TotalEitherCase, Digit, k)
  {
    if k :| MatchAt(line, TotalLower, Digit, k) {
      assert MatchAt(line, TotalEitherCase, Digit, k);
    }
  }

  /** The notices appear exactly when their checks fire: a marker with no number (or
      word) after it anywhere in the line yields nothing, and the master-started
      notice needs only its phrase. */
  lemma {:induction false} ClassifyNoticeKinds(line: string, total: nat)
    requires line != []
    ensures var items := Classify(line, total).items;
            (MasterStarted in items <==> Contains(line, "Round Robin Master Started")) &&
            ((exists x :: x in items && x.DeviceInitialized?) <==>
               Contains(line, "Device initialized as ID:") && exists k :: MatchAt(line, IdMarker, Digit, k)) &&
            ((exists x :: x in items && x.SystemState?) <==> exists k :: MatchAt(line, StateMarker, Word, k))
  {
    ClassifyRanks(line, total);
    HasRankIff(Classify(line, total).items);
    DeviceIdStepSpec(line);
    StateStepSpec(line);
  }

  lemma AssembleInitFollowsCount(line: string, total: nat, c: Classified, n: Classified, m: seq<Item>, d: seq<Item>, st: seq<Item>)
    requires StepShapes(total, c, n, m, d, st)
    ensures var items := Assemble(line, c, n, m, d, st).items;
            forall k :: 0 <= k < |items| && items[k] == InitComplete ==> k >= 2 && items[k - 1].DeviceCount?
  {
    var tail := m + (d + st);
    assert InitComplete !in tail;
    var pre := [Receive(line)] + c.items;
    var items := Assemble(line, c, n, m, d, st).items;
    assert items == pre + (n.items + tail);
    forall k | 0 <= k < |items|
      ensures items[k] == InitComplete ==> k == 2 + |c.items| && items[k - 1].DeviceCount?
    {
      if k < |pre| {
        assert items[k] == pre[k];
      } else if k < |pre| + |n.items| {
        assert items[k] == n.items[k - |pre|];
        assert items[|pre|] == n.items[0];
      } else {
        assert items[k] == tail[k - |pre| - |n.items|];
      }
    }
  }

  /** An init-complete item is always announced right after a device count. */
  lemma {:induction false} InitCompleteFollowsCount(line: string, total: nat)
    ensures var items := Classify(line, total).items;
            forall k :: 0 <= k < |items| && items[k] == InitComplete ==> k >= 2 && items[k - 1].DeviceCount?
  {
    if line != [] {
      var c := CountStep(line, total);
      ClassifyShapes(line, total);
      AssembleInitFollowsCount(line, total, c, InitStep(line, c.total), MasterStep(line), DeviceIdStep(line), StateStep(line));
    }
  }

  /** Without the capitalised spelling in the line, both count searches match at the
      same places, so they read the same number. */
  lemma LowerOnlySameCount(line: string)
    requires !Contains(line, "Total Devices:")
    ensures SearchNumber(line, TotalEitherCase) == SearchNumber(line, TotalLower)
  {
    ContainsIff(line, "Total Devices:");
    assert Width(TotalEitherCase) == 14 == Width(TotalLower);
    forall k: nat ensures MatchAt(line, TotalEitherCase, Digit, k) <==> MatchAt(line, TotalLower, Digit, k) {
      if MarkerAt(line, TotalEitherCase, k) {
        assert !OccursAt(line, "Total Devices:", k);
      }
    }
    SearchAlike(line, TotalEitherCase, TotalLower, Digit);
  }

  /** A completion line without the capitalised marker enqueues, right after its echo,
      the same device count twice and then the init-complete notice, and leaves the
      reader's total at that count. */
  lemma CompletionCountsTwice(line: string, total: nat)
    requires line != [] && Contains(line, "Initialization complete") && !Contains(line, "Total Devices:")
    requires exists k :: MatchAt(line, TotalLower, Digit, k)
    ensures SearchNumber(line, TotalLower).Some?
    ensures var n := SearchNumber(line, TotalLower).value;
            var r := Classify(line, total);
            |r.items| >= 4 && r.items[..4] == [Receive(line), DeviceCount(n), DeviceCount(n), InitComplete] && r.total == n
  {
    var c := CountStep(line, total);
    var n := InitStep(line, c.total);
    assert c.items != [] by {
      CountStepSpec(line, total);
      LowerIsEither(line);
    }
    assert n.items != [] by {
      InitStepSpec(line, c.total);
    }
    LowerOnlySameCount(line);
    var rest := MasterStep(line) + (DeviceIdStep(line) + StateStep(line));
    var items := Classify(line, total).items;
    assert items == [Receive(line)] + ([DeviceCount(c.total)] + ([DeviceCount(n.total), InitComplete] + rest));
    FourFirst(Receive(line), DeviceCount(c.total), DeviceCount(n.total), InitComplete, rest);
  }

  lemma FourFirst(a: Item, b: Item, c: Item, d: Item, rest: seq<Item>)
    ensures var s := [a] + ([b] + ([c, d] + rest));
            |s| >= 4 && s[..4] == [a, b, c, d]
  {
  }

  /** A completion line of the shape the init-complete check looks for. */
  const CompletionText: string := "Initialization complete. Total devices: 2"

  lemma CompletionTextMatch()
    ensures MatchAt(CompletionText, TotalLower, Digit, 25)
    ensures Group(CompletionText, TotalLower, Digit, 25) == "2"
  {
    CompletionTextMarker();
    CompletionTextTail();
  }

  lemma CompletionTextMarker()
    ensures Width(TotalLower) == 14 && MarkerAt(CompletionText, TotalLower, 25)
  {
    assert CompletionText[25..39] == "Total devices:";
  }

  lemma CompletionTextTail()
    ensures |CompletionText| == 41 && SkipSpace(CompletionText, 39) == 40 && IsDigit(CompletionText[40])
    ensures RunEnd(CompletionText, 40, Digit) == 41 && CompletionText[40..41] == "2"
  {
    var line := CompletionText;
    assert IsSpace(line[39]) && !IsSpace(line[40]) && IsDigit(line[40]);
  }

  lemma CompletionTextFirst()
    ensures forall k: nat :: k < 25 ==> !MatchAt(CompletionText, TotalLower, Digit, k)
  {
    var line := CompletionText;
    assert forall j :: 0 <= j < 25 ==> line[j] != 'T';
    forall k: nat | k < 25 ensures !MarkerAt(line, TotalLower, k) {
      assert line[k..k + 14][0] == line[k];
    }
  }

  lemma CompletionTextPhrases()
    ensures Contains(CompletionText, "Initialization complete")
    ensures !Contains(CompletionText, "Total Devices:")
  {
    CompletionTextOpens();
    CompletionTextLacksCapital();
  }

  lemma CompletionTextOpens()
    ensures Contains(CompletionText, "Initialization complete")
  {
    var line := CompletionText;
    assert line[..23] == "Initialization complete";
    assert OccursAt(line, "Initialization complete", 0);
    ContainsIff(line, "Initialization complete");
  }

  lemma CompletionTextLacksCapital()
    ensures !Contains(CompletionText, "Total Devices:")
  {
    var line := CompletionText;
    assert 'D' !in line;
    LacksChar(line, "Total Devices:", 6);
  }

  lemma CompletionTextCount()
    ensures SearchNumber(CompletionText, TotalLower) == Some(2)
  {
    CompletionTextMatch();
    CompletionTextFirst();
    SearchNumberAt(CompletionText, TotalLower, 25);
    DigitTwo();
  }

  lemma DigitTwo()
    ensures AllDigits("2") && DigitsToNat("2") == 2
  {
  }

  /** The completion line reports the count twice, once from each check that
      matches it, before the init-complete notice. */
  lemma CompletionLine()
    ensures var r := Classify(CompletionText, 0);
            r.total == 2 && r.items == [Receive(CompletionText), DeviceCount(2), DeviceCount(2), InitComplete]
  {
    CompletionTextPhrases();
    CompletionTextMatch();
    CompletionTextCount();
    CompletionTextNoNotices();
    CompletionCountsOnly(CompletionText, 0);
  }

  /** A completion line of that shape that none of the notice checks fires on
      enqueues nothing more than its echo, the count twice and the notice. */
  lemma CompletionCountsOnly(line: string, total: nat)
    requires line != [] && Contains(line, "Initialization complete") && !Contains(line, "Total Devices:")
    requires exists k :: MatchAt(line, TotalLower, Digit, k)
    requires MasterStep(line) == [] && DeviceIdStep(line) == [] && StateStep(line) == []
    ensures SearchNumber(line, TotalLower).Some?
    ensures var n := SearchNumber(line, TotalLower).value;
            var r := Classify(line, total);
            r.items == [Receive(line), DeviceCount(n), DeviceCount(n), InitComplete] && r.total == n
  {
    CompletionCountsTwice(line, total);
    CountsOnlyShort(line, total);
    var items := Classify(line, total).items;
    assert items == items[..4];
  }

  lemma CountsOnlyShort(line: string, total: nat)
    requires line != [] && MasterStep(line) == [] && DeviceIdStep(line) == [] && StateStep(line) == []
    ensures |Classify(line, total).items| <= 4
  {
    var c := CountStep(line, total);
    var n := InitStep(line, c.total);
    assert Classify(line, total).items == [Receive(line)] + (c.items + (n.items + ([] + ([] + []))));
  }

  /** The completion line triggers none of the three notice checks: it lacks the
      capital letter each of their phrases begins with. */
  lemma CompletionTextNoNotices()
    ensures MasterStep(CompletionText) == [] && DeviceIdStep(CompletionText) == [] && StateStep(CompletionText) == []
  {
    CompletionTextNoMaster();
    CompletionTextNoDeviceId();
    CompletionTextNoState();
  }

  lemma CompletionTextNoMaster()
    ensures !Contains(CompletionText, "Round Robin Master Started")
  {
    assert 'R' !in CompletionText;
    LacksChar(CompletionText, "Round Robin Master Started", 0);
  }

  lemma CompletionTextNoDeviceId()
    ensures !Contains(CompletionText, "Device initialized as ID:")
  {
    assert 'D' !in CompletionText;
    LacksChar(CompletionText, "Device initialized as ID:", 0);
  }

  lemma CompletionTextNoState()
    ensures !Contains(CompletionText, "Current State:")
  {
    assert 'C' !in CompletionText;
    LacksChar(CompletionText, "Current State:", 0);
  }
}
