/**
 * The detection window of the send-with-recovery path. After the command is
 * written, the sender polls the shared queue for a while, popping and
 * discarding at most one item per poll, and stops early at the first received
 * line that carries the firmware's command-timeout warning. Meanwhile the
 * serial reader keeps classifying lines and appending their items.
 *
 * The wall-clock window is replaced by a poll budget: `arrivals[i]` holds the
 * raw lines the reader delivers while the sender sleeps after poll i, so
 * `|arrivals|` is the number of polls.
 */
module Recovery {
  import opened Text
  import opened Classifier

  /** A popped item that triggers the recovery: a received line holding the warning. */
  predicate IsTimeoutWarning(it: Item) {
    it.Receive? && Contains(it.line, "WARNING: Command timeout")
  }

  predicate NoWarning(items: seq<Item>) {
    forall x :: x in items ==> !IsTimeoutWarning(x)
  }

  /** The reader handling a batch of raw lines in order: the items it appends and
      the device total it ends with. */
  function Deliver(total: nat, lines: seq<string>): (r: Classified)
    ensures lines == [] ==> r == Classified([], total)
    ensures r.items == [] ==> r.total == total
    decreases |lines|
  {
    if lines == [] then Classified([], total)
    else
      var first := ReadLine(lines[0], total);
      var rest := Deliver(first.total, lines[1..]);
      Classified(first.items + rest.items, rest.total)
  }

  /** Delivering the lines from position j on is reading line j, then delivering the rest. */
  lemma DeliverFrom(total: nat, lines: seq<string>, j: nat)
    requires j < |lines|
    ensures var first := ReadLine(lines[j], total);
            var rest := Deliver(first.total, lines[j + 1..]);
            Deliver(total, lines[j..]) == Classified(first.items + rest.items, rest.total)
  {
    assert lines[j..][0] == lines[j] && lines[j..][1..] == lines[j + 1..];
  }

  /** Delivering two batches back to back is delivering the first, then the second
      from the device total the first one ends with. */
  lemma {:induction false} DeliverAppend(total: nat, a: seq<string>, b: seq<string>)
    ensures var x := Deliver(total, a);
            var y := Deliver(x.total, b);
            Deliver(total, a + b) == Classified(x.items + y.items, y.total)
    decreases |a|
  {
    if a == [] {
      assert a + b == b;
    } else {
      var first := ReadLine(a[0], total);
      var x := Deliver(first.total, a[1..]);
      var y := Deliver(x.total, b);
      assert Deliver(total, a) == Classified(first.items + x.items, x.total);
      var whole := Deliver(first.total, a[1..] + b);
      assert Deliver(total, a + b) == Classified(first.items + whole.items, whole.total) by {
        HeadTail(a, b);
      }
      assert whole == Classified(x.items + y.items, y.total) by {
        DeliverAppend(first.total, a[1..], b);
      }
      Assoc(first.items, x.items, y.items);
    }
  }

  lemma HeadTail<T>(a: seq<T>, b: seq<T>)
    requires a != []
    ensures a + b != [] && (a + b)[0] == a[0] && (a + b)[1..] == a[1..] + b
  {
  }

  /** A batch delivered up to position j, then one line more. */
  lemma DeliverStep(total: nat, lines: seq<string>, j: nat, done: seq<Item>, t: nat)
    requires j < |lines|
    requires Deliver(total, lines) == Classified(done + Deliver(t, lines[j..]).items, Deliver(t, lines[j..]).total)
    ensures var c := ReadLine(lines[j], t);
            var rest := Deliver(c.total, lines[j + 1..]);
            Deliver(total, lines) == Classified((done + c.items) + rest.items, rest.total)
  {
    var c := ReadLine(lines[j], t);
    DeliverFrom(t, lines, j);
    Assoc(done, c.items, Deliver(c.total, lines[j + 1..]).items);
  }

  /** What the window leaves behind: the queue, the reader's device total, the items
      popped (and discarded) in order, every item the reader appended, and whether
      the warning was seen. */
  datatype Window = Window(queue: seq<Item>, total: nat, popped: seq<Item>, delivered: seq<Item>, detected: bool)

  /** The polling loop: each poll pops the head of the queue if there is one; a
      warning ends the window at once, otherwise the reader's lines for that poll
      are appended before the next poll. */
  function Poll(queue: seq<Item>, total: nat, arrivals: seq<seq<string>>): Window
    decreases |arrivals|
  {
    if arrivals == [] then Window(queue, total, [], [], false)
    else if queue != [] && IsTimeoutWarning(queue[0]) then Window(queue[1..], total, [queue[0]], [], true)
    else
      var popped := if queue == [] then [] else [queue[0]];
      var d := Deliver(total, arrivals[0]);
      var w := Poll((if queue == [] then [] else queue[1..]) + d.items, d.total, arrivals[1..]);
      Window(w.queue, w.total, popped + w.popped, d.items + w.delivered, w.detected)
  }

  lemma Regroup(p: seq<Item>, t: seq<Item>, q: seq<Item>, wp: seq<Item>, wq: seq<Item>, di: seq<Item>, wd: seq<Item>)
    requires p + t == q
    requires wp + wq == t + di + wd
    ensures p + wp + wq == q + (di + wd)
  {
    calc {
      p + wp + wq;
      p + (wp + wq);
      p + (t + di + wd);
      (p + t) + (di + wd);
    }
  }

  /** Nothing is lost or reordered: what was popped followed by what is left is the
      old queue followed by everything the reader appended. */
  lemma {:induction false} PollConserves(queue: seq<Item>, total: nat, arrivals: seq<seq<string>>)
    ensures var w := Poll(queue, total, arrivals);
            w.popped + w.queue == queue + w.delivered
    decreases |arrivals|
  {
    if arrivals == [] {
    } else if queue != [] && IsTimeoutWarning(queue[0]) {
      assert queue == [queue[0]] + queue[1..];
    } else {
      var d := Deliver(total, arrivals[0]);
      var tail := if queue == [] then [] else queue[1..];
      var popped := if queue == [] then [] else [queue[0]];
      assert popped + tail == queue;
      var w := Poll(tail + d.items, d.total, arrivals[1..]);
      PollConserves(tail + d.items, d.total, arrivals[1..]);
      Regroup(popped, tail, queue, w.popped, w.queue, d.items, w.delivered);
    }
  }

  /** At most one item is popped per poll. */
  lemma {:induction false} PollPopsAtMostOnePerPoll(queue: seq<Item>, total: nat, arrivals: seq<seq<string>>)
    ensures |Poll(queue, total, arrivals).popped| <= |arrivals|
    decreases |arrivals|
  {
    if arrivals != [] && !(queue != [] && IsTimeoutWarning(queue[0])) {
      var d := Deliver(total, arrivals[0]);
      var tail := if queue == [] then [] else queue[1..];
      PollPopsAtMostOnePerPoll(tail + d.items, d.total, arrivals[1..]);
    }
  }

  /** The window is detected exactly when its last pop is a warning, and no earlier pop
      was one: the loop stops at the first warning it sees. */
  lemma {:induction false} PollStopsAtFirstWarning(queue: seq<Item>, total: nat, arrivals: seq<seq<string>>)
    ensures var w := Poll(queue, total, arrivals);
            (w.detected <==> EndsWithWarning(w.popped)) && NoWarning(AllButLast(w.popped))
    decreases |arrivals|
  {
    if arrivals != [] && !(queue != [] && IsTimeoutWarning(queue[0])) {
      var d := Deliver(total, arrivals[0]);
      var tail := if queue == [] then [] else queue[1..];
      var w := Poll(tail + d.items, d.total, arrivals[1..]);
      PollStopsAtFirstWarning(tail + d.items, d.total, arrivals[1..]);
      var popped := if queue == [] then [] else [queue[0]];
      StopShape(popped, w.popped);
    }
  }

  predicate EndsWithWarning(s: seq<Item>) {
    s != [] && IsTimeoutWarning(s[|s| - 1])
  }

  function AllButLast(s: seq<Item>): seq<Item> {
    if s == [] then [] else s[..|s| - 1]
  }

  lemma StopShape(p: seq<Item>, wp: seq<Item>)
    requires |p| <= 1 && NoWarning(p) && NoWarning(AllButLast(wp))
    ensures NoWarning(AllButLast(p + wp))
    ensures EndsWithWarning(p + wp) <==> EndsWithWarning(wp)
  {
    var all := p + wp;
    if wp == [] {
      assert all == p;
      if p != [] { assert p[0] in p; }
    } else {
      assert all[|all| - 1] == wp[|wp| - 1];
      assert AllButLast(all) == p + AllButLast(wp);
    }
  }

  lemma Assoc(a: seq<Item>, b: seq<Item>, c: seq<Item>)
    ensures a + b + c == a + (b + c)
  {
  }

  lemma Shifted(queue: seq<Item>, extra: seq<Item>, k: nat)
    requires 0 < k < |queue|
    ensures var next := queue[1..] + extra;
            next[k - 1] == queue[k] && next[..k - 1] == queue[1..k] && next[..k] == queue[1..k + 1] &&
            next[k..] == queue[k + 1..] + extra && queue[..k + 1] == [queue[0]] + queue[1..k + 1]
  {
  }

  /** A warning already waiting at position k of the queue, behind no other warning, is
      found by the (k+1)-th poll when the budget allows that many: exactly the items
      before it and the warning itself are discarded, and everything behind it stays
      queued, followed by what the reader appended meanwhile. */
  lemma {:induction false} PollFindsQueuedWarning(queue: seq<Item>, total: nat, arrivals: seq<seq<string>>, k: nat)
    requires k < |queue| && k < |arrivals|
    requires IsTimeoutWarning(queue[k]) && NoWarning(queue[..k])
    ensures var w := Poll(queue, total, arrivals);
            w.detected && w.popped == queue[..k + 1] && w.queue == queue[k + 1..] + w.delivered
    decreases k
  {
    if k == 0 {
      assert queue[..1] == [queue[0]];
    } else {
      assert queue[0] in queue[..k];
      var d := Deliver(total, arrivals[0]);
      var next := queue[1..] + d.items;
      Shifted(queue, d.items, k);
      assert NoWarning(next[..k - 1]) by {
        forall x | x in next[..k - 1] ensures !IsTimeoutWarning(x) {
          assert x in queue[..k];
        }
      }
      PollFindsQueuedWarning(next, d.total, arrivals[1..], k - 1);
      var w := Poll(next, d.total, arrivals[1..]);
      assert Poll(queue, total, arrivals) == Window(w.queue, w.total, [queue[0]] + w.popped, d.items + w.delivered, w.detected);
      Assoc(queue[k + 1..], d.items, w.delivered);
    }
  }

  /** Without any warning in the queue or in what the reader delivers, the window runs
      out its budget undetected and pops one item per poll while there is one. */
  lemma {:induction false} PollWithoutWarning(queue: seq<Item>, total: nat, arrivals: seq<seq<string>>)
    requires NoWarning(queue)
    ensures var w := Poll(queue, total, arrivals);
            NoWarning(w.delivered) ==> !w.detected
    decreases |arrivals|
  {
    if arrivals != [] {
      if queue != [] {
        assert queue[0] in queue;
      }
      var d := Deliver(total, arrivals[0]);
      var next := (if queue == [] then [] else queue[1..]) + d.items;
      var w := Poll(next, d.total, arrivals[1..]);
      if NoWarning(d.items + w.delivered) {
        assert NoWarning(next) by {
          forall x | x in next ensures !IsTimeoutWarning(x) {
            if x in d.items {
              assert x in d.items + w.delivered;
            } else {
              assert x in queue;
            }
          }
        }
        assert NoWarning(w.delivered) by {
          forall x | x in w.delivered ensures !IsTimeoutWarning(x) {
            assert x in d.items + w.delivered;
          }
        }
        PollWithoutWarning(next, d.total, arrivals[1..]);
      }
    }
  }
}
