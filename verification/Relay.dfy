/** The relay, its framed transport and its spill store changed in place. */
module Relay {
  import opened Basics
  import opened Folding
  import RelayModel
  import SpillModel

  class RelayCell<V(==)> {
    const policy: RelayModel.Policy<V>
    var head: V
    var pending: nat

    ghost function Value(): RelayModel.Relay<V>
      reads this
    {
      RelayModel.Relay(head, pending)
    }

    constructor (rules: RelayModel.Policy<V>)
      ensures policy == rules && Value() == RelayModel.Empty(rules)
    {
      policy, head, pending := rules, rules.nil, 0;
    }

    /** The write of the cell that holds the head. */
    method SetHead(value: V)
      modifies this`head
      ensures head == RelayModel.Store(policy, old(head), value)
    {
      if !policy.same(head, value) {
        head := value;
      }
    }

    method Ingress(op: V, limits: RelayModel.Limits) returns (outcome: RelayModel.Outcome)
      modifies this
      ensures (Value(), outcome) == RelayModel.Ingress(policy, old(Value()), op, limits)
    {
      var wasEmpty := pending == 0;
      if pending >= limits.highWater {
        match limits.overflow {
          case Block => return RelayModel.Blocked;
          case DropNewest => return RelayModel.Dropped;
          case DropOldest =>
            SetHead(op);
            pending := 1;
            return RelayModel.Dropped;
          case Conflate =>
          case Spill =>
        }
      }
      SetHead(if head == policy.nil then op else policy.merge(head, op));
      pending := pending + 1;
      outcome := if wasEmpty then RelayModel.Accepted else RelayModel.Conflated;
    }

    method Drain() returns (window: Option<V>)
      modifies this
      ensures (Value(), window) == RelayModel.Drain(policy, old(Value()))
    {
      window := None;
      if head != policy.nil {
        window := Some(head);
        SetHead(policy.nil);
        pending := 0;
      }
    }
  }

  class FramedTransport<V> {
    const frameSize: nat
    var buf: seq<V>

    constructor (size: nat)
      ensures frameSize == (if size == 0 then 1 else size) && buf == []
    {
      frameSize, buf := if size == 0 then 1 else size, [];
    }

    method Deliver(op: V)
      modifies this
      ensures buf == old(buf) + [op]
    {
      buf := buf + [op];
    }

    /** Nothing is lost or reordered, and something comes as long as something is buffered. */
    method Poll() returns (frame: seq<V>)
      modifies this
      ensures (frame, buf) == RelayModel.Poll(old(buf), frameSize) && frame + buf == old(buf)
      ensures |frame| <= frameSize || frameSize == 0
      ensures old(buf) != [] && frameSize > 0 ==> frame != []
    {
      var n := if frameSize < |buf| then frameSize else |buf|;
      frame := buf[..n];
      buf := buf[n..];
    }
  }

  class SpillStore {
    const merge: (SpillModel.V, SpillModel.V) -> SpillModel.V
    const mode: SpillModel.Mode
    const pageSize: nat
    var pages: seq<SpillModel.Page>
    var openFill: nat
    var nextId: nat
    var acked: nat

    ghost function Value(): SpillModel.Tail
      reads this
    {
      SpillModel.Tail(mode, pageSize, pages, openFill, nextId, acked)
    }

    ghost predicate Valid()
      reads this
    {
      acked <= |pages|
    }

    constructor (layout: SpillModel.Mode, size: nat, policy: (SpillModel.V, SpillModel.V) -> SpillModel.V)
      ensures Valid() && merge == policy && Value() == SpillModel.NewTail(layout, size)
    {
      merge, mode, pageSize := policy, layout, if size == 0 then 1 else size;
      pages, openFill, nextId, acked := [], 0, 0, 0;
    }

    method PushPage(summary: SpillModel.V, bytes: nat)
      modifies this
      ensures Value() == SpillModel.PushPage(old(Value()), summary, bytes)
    {
      pages := pages + [SpillModel.Page(nextId, summary, bytes)];
      nextId := nextId + 1;
    }

    method Spill(window: SpillModel.V, bytes: nat)
      requires Valid()
      modifies this
      ensures Valid() && Value() == SpillModel.Spill(merge, old(Value()), window, bytes)
    {
      if mode == SpillModel.AppendCompact {
        PushPage(window, bytes);
      } else if openFill >= pageSize || |pages| == 0 {
        PushPage(window, bytes);
        openFill := 1;
      } else {
        var last := pages[|pages| - 1];
        pages := pages[|pages| - 1 := last.(summary := merge(last.summary, window), bytes := last.bytes + bytes)];
        openFill := openFill + 1;
      }
    }

    method AckThrough(id: nat)
      requires Valid()
      modifies this`acked
      ensures Valid() && Value() == SpillModel.AckThrough(old(Value()), id)
    {
      while acked < |pages| && pages[acked].id <= id
        invariant Valid() && SpillModel.AckThrough(old(Value()), id) == SpillModel.AckThrough(Value(), id)
        decreases |pages| - acked
      {
        acked := acked + 1;
      }
    }

    method Reclaim()
      requires Valid()
      modifies this
      ensures Valid() && Value() == SpillModel.Reclaim(old(Value()))
    {
      if acked > 0 {
        pages := pages[acked..];
        acked := 0;
      }
    }

    /** Fold every live page, oldest first, and then the hot head. */
    method Reconstruct(s0: SpillModel.V, hot: Option<SpillModel.V>) returns (v: SpillModel.V)
      ensures v == SpillModel.Reconstruct(merge, Value(), s0, hot)
    {
      v := FoldOver(pages, s0);
      if hot.Some? {
        v := merge(v, hot.value);
      }
    }

    method ReplayUnacked(downstream: SpillModel.V) returns (v: SpillModel.V)
      requires Valid()
      ensures v == SpillModel.ReplayUnacked(merge, Value(), downstream)
    {
      v := FoldOver(pages[acked..], downstream);
    }

    method FoldOver(ps: seq<SpillModel.Page>, start: SpillModel.V) returns (v: SpillModel.V)
      ensures v == FoldFrom(merge, start, SpillModel.Summaries(ps))
    {
      ghost var all := SpillModel.Summaries(ps);
      v := start;
      var i := 0;
      while i < |ps|
        invariant i <= |ps| && v == FoldFrom(merge, start, all[..i])
      {
        assert all[..i + 1][..i] == all[..i];
        v := merge(v, ps[i].summary);
        i := i + 1;
      }
      assert all[..|ps|] == all;
    }
  }
}
