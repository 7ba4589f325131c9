/**
 * What the GUI-side consumer does with each queued item: the display fields it
 * sets, the dropdowns it rebuilds and the log line it appends. `Drain` applies
 * a whole queue, front to back, as the consumer's loop does until the queue
 * is empty.
 */
module Consumer {
  import opened Wrappers
  import opened Text
  import opened Classifier
  import opened DeviceLists

  /** The displayed state: connection label, device count, system state, the raw DAC
      label, both device dropdowns and the log (message texts, without timestamps). */
  datatype Panel = Panel(
    connText: string,
    countText: string,
    stateText: string,
    rawText: string,
    servo: Picker,
    dac: Picker,
    log: seq<string>)

  /** Both dropdowns show one of their offered values. */
  predicate PanelConsistent(p: Panel) {
    Consistent(p.servo) && Consistent(p.dac)
  }

  /** The log line an item produces; a system-state item produces none. */
  function LogLine(it: Item): (r: Option<string>)
    ensures r.None? <==> it.SystemState?
  {
    match it
    case Receive(line) => Some("RX: " + line)
    case DeviceCount(n) => Some("Device count updated: " + NatToString(n) + " devices detected")
    case SystemState(_) => None
    case MasterStarted => Some("Master device started - beginning device detection")
    case DeviceInitialized(id) => Some("Device " + Pad3(id) + " initialized")
    case InitComplete => Some("Device initialization complete")
    case Error(text) => Some(text)
  }

  function LogLines(items: seq<Item>): (lines: seq<string>)
    ensures |lines| <= |items|
  {
    if items == [] then []
    else
      (match LogLine(items[0]) case None => [] case Some(l) => [l]) + LogLines(items[1..])
  }

  /** One item applied to the display. A device-count item rebuilds the dropdowns
      from the device total the reader holds, not from the count it carries. */
  function Apply(p: Panel, total: nat, it: Item): (r: Panel)
    ensures r.connText == p.connText && r.rawText == p.rawText
    ensures !it.DeviceCount? ==> r.countText == p.countText && r.servo == p.servo && r.dac == p.dac
    ensures !it.SystemState? ==> r.stateText == p.stateText
    ensures |p.log| <= |r.log| <= |p.log| + 1 && r.log[..|p.log|] == p.log
  {
    var logged := match LogLine(it) case None => p.log case Some(l) => p.log + [l];
    match it
    case DeviceCount(n) =>
      p.(countText := NatToString(n), servo := Rebuilt(p.servo, total), dac := Rebuilt(p.dac, total), log := logged)
    case SystemState(word) => p.(stateText := word)
    case _ => p.(log := logged)
  }

  /** The queue applied in FIFO order. The connection label and the raw DAC label
      are never touched, and each item adds at most one log line. */
  function Drain(p: Panel, total: nat, items: seq<Item>): (r: Panel)
    ensures r.connText == p.connText && r.rawText == p.rawText
    ensures |p.log| <= |r.log| <= |p.log| + |items|
    decreases |items|
  {
    if items == [] then p else Drain(Apply(p, total, items[0]), total, items[1..])
  }

  /** Draining the items of a then those of b is draining a + b. */
  lemma {:induction false} DrainAppend(p: Panel, total: nat, a: seq<Item>, b: seq<Item>)
    ensures Drain(p, total, a + b) == Drain(Drain(p, total, a), total, b)
    decreases |a|
  {
    if a == [] {
      assert a + b == b;
    } else {
      assert (a + b)[0] == a[0] && (a + b)[1..] == a[1..] + b;
      DrainAppend(Apply(p, total, a[0]), total, a[1..], b);
    }
  }

  lemma AppendAssoc<T>(a: seq<T>, b: seq<T>, c: seq<T>)
    ensures a + b + c == a + (b + c)
  {
  }

  /** The log grows by exactly the items' log lines, in queue order; nothing earlier
      in the log changes. */
  lemma {:induction false} DrainLog(p: Panel, total: nat, items: seq<Item>)
    ensures Drain(p, total, items).log == p.log + LogLines(items)
    decreases |items|
  {
    if items != [] {
      var q := Apply(p, total, items[0]);
      var line := match LogLine(items[0]) case None => [] case Some(l) => [l];
      assert q.log == p.log + line;
      assert LogLines(items) == line + LogLines(items[1..]);
      assert Drain(p, total, items).log == p.log + line + LogLines(items[1..]) by {
        DrainLog(q, total, items[1..]);
      }
      AppendAssoc(p.log, line, LogLines(items[1..]));
    }
  }

  lemma LastCountTail(items: seq<Item>, k: int)
    requires IsLastCount(items, k)
    ensures k > 0 ==> IsLastCount(items[1..], k - 1)
    ensures k == 0 ==> NoCount(items[1..])
  {
    if k == 0 {
      forall x | x in items[1..] ensures !x.DeviceCount? {
        var j :| 0 <= j < |items[1..]| && items[1..][j] == x;
        assert items[j + 1] == x;
      }
    }
  }

  lemma ApplyCount(p: Panel, total: nat, it: Item)
    ensures Apply(p, total, it).countText == if it.DeviceCount? then NatToString(it.count) else p.countText
  {
  }

  /** The count label shows the last device count of the queue, and is untouched when
      the queue holds none. */
  lemma {:induction false} DrainCount(p: Panel, total: nat, items: seq<Item>)
    ensures NoCount(items) ==> Drain(p, total, items).countText == p.countText
    ensures forall k :: IsLastCount(items, k) ==> Drain(p, total, items).countText == NatToString(items[k].count)
    decreases |items|
  {
    if items != [] {
      var rest := items[1..];
      var q := Apply(p, total, items[0]);
      ApplyCount(p, total, items[0]);
      DrainCount(q, total, rest);
      assert Drain(p, total, items) == Drain(q, total, rest);
      forall k | IsLastCount(items, k) ensures Drain(p, total, items).countText == NatToString(items[k].count) {
        LastCountTail(items, k);
      }
      if NoCount(items) {
        assert items[0] in items;
        assert NoCount(rest) by {
          forall x | x in rest ensures !x.DeviceCount? { assert x in items; }
        }
      }
    }
  }

  predicate NoState(items: seq<Item>) {
    forall x :: x in items ==> !x.SystemState?
  }

  predicate IsLastState(items: seq<Item>, k: int) {
    0 <= k < |items| && items[k].SystemState? &&
    forall j :: k < j < |items| ==> !items[j].SystemState?
  }

  lemma LastStateTail(items: seq<Item>, k: int)
    requires IsLastState(items, k)
    ensures k > 0 ==> IsLastState(items[1..], k - 1)
    ensures k == 0 ==> NoState(items[1..])
  {
    if k == 0 {
      forall x | x in items[1..] ensures !x.SystemState? {
        var j :| 0 <= j < |items[1..]| && items[1..][j] == x;
        assert items[j + 1] == x;
      }
    }
  }

  lemma ApplyState(p: Panel, total: nat, it: Item)
    ensures Apply(p, total, it).stateText == if it.SystemState? then it.word else p.stateText
  {
  }

  /** The state label shows the word of the last system-state item of the queue, and
      is untouched when the queue holds none. */
  lemma {:induction false} DrainState(p: Panel, total: nat, items: seq<Item>)
    ensures NoState(items) ==> Drain(p, total, items).stateText == p.stateText
    ensures forall k :: IsLastState(items, k) ==> Drain(p, total, items).stateText == items[k].word
    decreases |items|
  {
    if items != [] {
      var rest := items[1..];
      var q := Apply(p, total, items[0]);
      ApplyState(p, total, items[0]);
      DrainState(q, total, rest);
      assert Drain(p, total, items) == Drain(q, total, rest);
      forall k | IsLastState(items, k) ensures Drain(p, total, items).stateText == items[k].word {
        LastStateTail(items, k);
      }
      if NoState(items) {
        assert items[0] in items;
        assert NoState(rest) by {
          forall x | x in rest ensures !x.SystemState? { assert x in items; }
        }
      }
    }
  }

  /** The dropdowns are rebuilt, once or many times to the same effect, exactly when
      the queue holds a device count; otherwise they are untouched. */
  lemma {:induction false} DrainPickers(p: Panel, total: nat, items: seq<Item>)
    ensures NoCount(items) ==> Drain(p, total, items).servo == p.servo && Drain(p, total, items).dac == p.dac
    ensures !NoCount(items) ==>
              Drain(p, total, items).servo == Rebuilt(p.servo, total) &&
              Drain(p, total, items).dac == Rebuilt(p.dac, total)
    decreases |items|
  {
    if items != [] {
      var rest := items[1..];
      var q := Apply(p, total, items[0]);
      DrainPickers(q, total, rest);
      assert forall x :: x in items <==> x == items[0] || x in rest;
      if items[0].DeviceCount? {
        RebuiltIdempotent(p.servo, total);
        RebuiltIdempotent(p.dac, total);
      }
    }
  }

  /** Draining never leaves a dropdown showing a value it does not offer. */
  lemma DrainConsistent(p: Panel, total: nat, items: seq<Item>)
    requires PanelConsistent(p)
    ensures PanelConsistent(Drain(p, total, items))
  {
    DrainPickers(p, total, items);
  }
}
