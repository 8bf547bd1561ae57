/** The window of recent messages as a Go slice: a view into a backing array that earlier copies
    of the entry (in the store, in a caller's hands) still share (internal/sessions/manager.go). */
module SessionWindow {
  import opened SessionContext

  datatype Slice = Slice(backing: array<ContextMessage>, off: nat, len: nat) {
    ghost predicate WellFormed() {
      off + len <= backing.Length
    }

    ghost function Contents(): (c: seq<ContextMessage>)
      requires WellFormed()
      reads backing
    {
      backing[off..off + len]
    }
  }

  /** A larger backing array holding the slice's messages and one more. */
  method Grow(s: Slice, msg: ContextMessage, spare: nat) returns (larger: array<ContextMessage>)
    requires s.WellFormed()
    ensures fresh(larger) && larger.Length == s.len + 1 + spare
    ensures larger[..s.len + 1] == s.Contents() + [msg]
  {
    larger := new ContextMessage[s.len + 1 + spare](_ => msg);
    for i := 0 to s.len
      invariant forall j | 0 <= j < i :: larger[j] == s.backing[s.off + j]
      invariant larger[s.len] == msg
      modifies larger
    {
      larger[i] := s.backing[s.off + i];
    }
  }

  class RecentMessages {
    var current: Slice
    /** Every slice handed out so far, with what it showed at the time. */
    ghost var handedOut: map<Slice, seq<ContextMessage>>

    ghost predicate Valid()
      reads this, current.backing, set s | s in handedOut :: s.backing
    {
      && current.WellFormed()
      && forall s | s in handedOut ::
           && s.WellFormed() && s.Contents() == handedOut[s]
           && (s.backing == current.backing ==> s.off + s.len <= current.off + current.len)
    }

    constructor ()
      ensures Valid() && current.Contents() == [] && handedOut == map[]
    {
      var backing := new ContextMessage[0];
      current := Slice(backing, 0, 0);
      handedOut := map[];
    }

    method HandOut() returns (s: Slice)
      requires Valid()
      modifies this`handedOut
      ensures Valid() && s == current && handedOut == old(handedOut)[s := current.Contents()]
    {
      s := current;
      handedOut := handedOut[s := current.Contents()];
    }

    /** Go's append: in place while the backing array has room, else into a larger copy. */
    method Append(msg: ContextMessage, spare: nat)
      requires Valid()
      modifies this`current, current.backing
      ensures Valid() && handedOut == old(handedOut)
      ensures current.Contents() == old(current.Contents()) + [msg]
      ensures current.backing == old(current.backing) || fresh(current.backing)
    {
      var end := current.off + current.len;
      if end < current.backing.Length {
        current.backing[end] := msg;
        current := Slice(current.backing, current.off, current.len + 1);
      } else {
        var larger := Grow(current, msg, spare);
        current := Slice(larger, 0, current.len + 1);
      }
    }

    /** The window part of applyContextMessage. No slice handed out earlier ever changes. */
    method Push(msg: ContextMessage, budget: ContextBudget, spare: nat) returns (promoted: seq<ContextMessage>)
      requires Valid() && Normalised(budget)
      modifies this`current, current.backing
      ensures Valid() && handedOut == old(handedOut)
      ensures forall s | s in handedOut :: s.Contents() == old(s.Contents())
      ensures promoted + current.Contents() == old(current.Contents()) + [msg]
      ensures |promoted| == if |old(current.Contents())| < budget.historyLimit then 0 else 1
      ensures current.backing == old(current.backing) || fresh(current.backing)
    {
      promoted := [];
      if current.len >= budget.historyLimit {
        promoted := [current.backing[current.off]];
        current := Slice(current.backing, current.off + 1, current.len - 1);
      }
      Append(msg, spare);
    }
  }
}
