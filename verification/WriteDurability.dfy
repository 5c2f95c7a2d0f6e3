/**
 * What the answer of a logical write outside every scope is worth: its
 * transaction framing and the export it waits for, put together.
 */
module WriteDurability {
  import opened Prelude
  import ExportProtocol
  import Transactions

  /**
   * A write outside every scope runs `op` on the connection `c`. In the
   * protocol it is the mutation `m`: it ends at `s1`, calling an export that
   * finds the connection as the write left it; at `s2` that export has
   * answered; `s3` is any state after. When the write answers `Ok`, it left no
   * transaction open and - if its opening probe settled the connection and its
   * statements succeeded - committed all it wrote; and its statements, like
   * those of every mutation ended before it, are whole in the OPFS image of
   * `s3` and in the database a worker that crashes there reopens.
   */
  lemma LogicalWriteIsDurable<T>(
    c: Transactions.Conn, world: Transactions.World, op: seq<Transactions.Piece>,
    verdict: Result<T, Transactions.WriteError>, w: Transactions.Outcome<T>,
    s0: ExportProtocol.State, before: seq<ExportProtocol.Step>, s1: ExportProtocol.State, m: nat, r: nat,
    middle: seq<ExportProtocol.Step>, s2: ExportProtocol.State,
    after: seq<ExportProtocol.Step>, s3: ExportProtocol.State, o: nat)
    requires Transactions.Sound(c)
    requires ExportProtocol.Initial(s0) && ExportProtocol.Allowed(s0, before) && s1 == ExportProtocol.Final(s0, before)
    requires ExportProtocol.Enabled(s1, ExportProtocol.EndUnscoped(m, r, w.clean)) && (o == m || o in s1.ended)
    requires var ended := ExportProtocol.Apply(s1, ExportProtocol.EndUnscoped(m, r, w.clean));
             && ExportProtocol.Crash !in middle && ExportProtocol.Allowed(ended, middle)
             && s2 == ExportProtocol.Final(ended, middle)
    requires r in s2.requests && s2.requests[r].Answered?
    requires w == Transactions.WithFlush(c, world, op, verdict, false, s2.requests[r].ok)
    requires ExportProtocol.Allowed(s2, after) && s3 == ExportProtocol.Final(s2, after)
    requires w.result.Ok?
    ensures w.result == verdict && !w.after.inTx
    ensures w.probe.Ok? && w.succeeded && Transactions.Plain(op) ==>
              w.after.committed == c.committed + Transactions.OpEffects(op)
    ensures ExportProtocol.Holds(s3, s3.disk, o)
    ensures var reopened := ExportProtocol.Apply(s3, ExportProtocol.Crash);
            ExportProtocol.Holds(reopened, reopened.db, o)
  {
    Transactions.WriteVerdict(c, world, op, verdict, false, s2.requests[r].ok);
    ExportProtocol.WritesAreDurable(s0, before, s1, m, r, w.clean, middle, s2, after, s3, o);
  }
}
