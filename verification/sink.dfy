/** The cancel-aware PCM sink whose contract the playback tasks of a session rely on. */
module Sink {
  import opened Ledger

  /** How much of a chunk the sink has consumed after some blocks. */
  function Consumed(total: nat, quantum: nat, blocks: nat): nat
    requires quantum >= 1
  {
    if quantum * blocks >= total then total else quantum * blocks
  }

  /**
   * The sink looks at the cancel event before and after every sleep and once more at the end; the
   * event is set from the `cancelAt`-th look on and never cleared.
   */
  function Blocks(total: nat, quantum: nat, cancelAt: nat, done: nat): nat
    requires quantum >= 1
    decreases total - Consumed(total, quantum, done)
  {
    if Consumed(total, quantum, done) == total || 2 * done >= cancelAt || 2 * done + 1 >= cancelAt then done
    else
      Progress(total, quantum, done);
      Blocks(total, quantum, cancelAt, done + 1)
  }

  lemma Progress(total: nat, quantum: nat, done: nat)
    requires quantum >= 1
    ensures quantum * (done + 1) == quantum * done + quantum
    ensures Consumed(total, quantum, done) < total ==>
              Consumed(total, quantum, done) < Consumed(total, quantum, done + 1) <= total
  {
  }

  /** Plays blocks until the chunk is consumed or the event is set; a receipt is cancelled only then. */
  method Play(chunkId: string, total: nat, quantum: nat, cancelAt: nat, startedNs: nat, stoppedNs: nat)
    returns (receipt: Receipt)
    requires total >= 1 && quantum >= 1 && startedNs <= stoppedNs
    ensures ValidReceipt(receipt)
    ensures receipt.chunkId == chunkId && receipt.requested == total
    ensures receipt.startedNs == startedNs && receipt.stoppedNs == stoppedNs
    ensures receipt.played == Consumed(total, quantum, Blocks(total, quantum, cancelAt, 0))
    ensures receipt.cancelled <==> receipt.played < total
    ensures receipt.cancelled ==> cancelAt <= 2 * Blocks(total, quantum, cancelAt, 0) + 1
  {
    var played := 0;
    ghost var blocks := 0;
    var looks := 0;
    var broken := false;
    while !broken && played < total && looks < cancelAt
      invariant played == Consumed(total, quantum, blocks) && played <= total
      invariant looks == 2 * blocks
      invariant Blocks(total, quantum, cancelAt, 0) == Blocks(total, quantum, cancelAt, blocks)
      invariant broken ==> 2 * blocks + 1 >= cancelAt && played < total
      decreases total - played, if broken then 0 else 1
    {
      var block := if total - played <= quantum then total - played else quantum;
      if looks + 1 >= cancelAt {
        broken := true;
      } else {
        Progress(total, quantum, blocks);
        played := played + block;
        blocks := blocks + 1;
        looks := looks + 2;
      }
    }
    receipt := Receipt(chunkId, total, played, startedNs, stoppedNs, played < total);
  }
}
