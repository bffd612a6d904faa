/** The state machine as an object that is updated in place. */
module StateMachines {
  import opened RaftTypes
  import C = Canvas

  class StateMachine {
    const dedupeMaxClients: nat
    var strokes: seq<C.Stroke>
    var dedupe: C.Table
    var lastApplied: int

    ghost function View(): C.State
      reads this
    {
      C.State(strokes, dedupe, lastApplied)
    }

    constructor (dedupeMaxClients: nat)
      ensures this.dedupeMaxClients == dedupeMaxClients && View() == C.EMPTY
    {
      this.dedupeMaxClients := dedupeMaxClients;
      strokes, dedupe, lastApplied := [], [], -1;
    }

    /** Read-only lookup for the leader's fast path. */
    method GetDedupeIndex(client: string, seqNo: int) returns (r: Option<nat>)
      ensures r == C.DedupeIndex(dedupe, client, seqNo)
    {
      var entry := C.Lookup(dedupe, client);
      if entry == None {
        return None;
      }
      return if entry.value.seqNo >= seqNo then Some(entry.value.index) else None;
    }

    /** Delete and set again, so that the client moves to the end; then evict the oldest if need be. */
    method TouchDedupe(client: string, seqNo: int, index: nat)
      modifies this`dedupe
      ensures dedupe == C.Touch(old(dedupe), C.Row(client, seqNo, index), dedupeMaxClients)
    {
      dedupe := C.Remove(dedupe, client);
      dedupe := dedupe + [C.Row(client, seqNo, index)];
      if |dedupe| > dedupeMaxClients {
        dedupe := dedupe[1..];
      }
    }

    method Apply(e: Entry)
      modifies this
      ensures View() == C.Apply(old(View()), e, dedupeMaxClients)
    {
      if e.index <= lastApplied {
        return;
      }
      if e.kind == STROKE {
        var clientId, seqNo := None, None;
        if e.payload.Some? {
          clientId, seqNo := e.payload.value.clientId, e.payload.value.seqNo;
        }
        if clientId != None && seqNo != None {
          var prev := C.Lookup(dedupe, clientId.value);
          if prev.Some? && prev.value.seqNo >= seqNo.value {
            lastApplied := e.index;
            return;
          }
          TouchDedupe(clientId.value, seqNo.value, e.index);
        }
        strokes := strokes + [C.StrokeOf(e)];
      }
      lastApplied := e.index;
    }

    method GetSnapshot() returns (snap: C.Snapshot)
      ensures snap == C.TakeSnapshot(View())
    {
      return C.Snapshot(strokes, dedupe);
    }

    method RestoreSnapshot(snap: C.Snapshot, lastIncludedIndex: int)
      modifies this
      ensures View() == C.Restore(snap, lastIncludedIndex)
    {
      strokes, dedupe, lastApplied := snap.strokes, snap.dedupe, lastIncludedIndex;
    }
  }
}
