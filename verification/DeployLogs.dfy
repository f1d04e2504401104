/** DeployLogger: ordered, exactly-once delivery to a server that drops repeated batch ids. */
module DeployLogs {
  import opened Text
  import opened Cluster

  datatype Batch = Batch(id: nat, lines: seq<string>)

  /** The server: the batch ids it has seen, and the lines it holds. */
  datatype Server = Server(seen: set<nat>, held: seq<string>)

  function Received(server: Server, batch: Batch): Server {
    if batch.id in server.seen then server
    else Server(server.seen + {batch.id}, server.held + batch.lines)
  }

  /** All the lines of a queue of batches. */
  function Lines(batches: seq<Batch>): seq<string> {
    if batches == [] then [] else batches[0].lines + Lines(batches[1..])
  }

  lemma {:induction false} LinesMore(batches: seq<Batch>, batch: Batch)
    ensures Lines(batches + [batch]) == Lines(batches) + batch.lines
  {
    if batches == [] {
      assert [batch][1..] == [];
    } else {
      assert (batches + [batch])[1..] == batches[1..] + [batch];
      LinesMore(batches[1..], batch);
    }
  }

  /** The lines a logger accepts: trimmed, not blank, sanitised. */
  function Accepted(sanitize: string -> string, lines: seq<string>): seq<string> {
    if lines == [] then []
    else
      var front, trimmed := Accepted(sanitize, lines[..|lines| - 1]), TrimSpace(lines[|lines| - 1]);
      if trimmed == "" then front else front + [sanitize(trimmed)]
  }

  /** Lines are accepted one by one: a blank one not at all, any other trimmed and sanitised. */
  lemma {:induction false} AcceptedOneByOne(sanitize: string -> string, lines: seq<string>, line: string)
    ensures Accepted(sanitize, [line]) == if TrimSpace(line) == "" then [] else [sanitize(TrimSpace(line))]
    ensures Accepted(sanitize, lines + [line]) == Accepted(sanitize, lines) + Accepted(sanitize, [line])
  {
    assert (lines + [line])[..|lines|] == lines;
    assert [line][..0] == [];
  }

  class DeployLogger {
    const maxBatch: nat
    const sanitize: string -> string
    const wire: nat -> Outcome
    const cancelled: nat -> bool
    var buffer: seq<string>
    var pending: seq<Batch>
    var nextId: nat
    var sends: nat
    var server: Server
    ghost var accepted: seq<string>
    ghost var delivered: seq<string>

    /** `wire` decides how each send ends, `cancelled` whether the context is done in the wait after it. */
    constructor (maxBatch: nat, sanitize: string -> string, wire: nat -> Outcome, cancelled: nat -> bool)
      requires maxBatch > 0
      ensures Valid() && accepted == [] && this.wire == wire && this.sanitize == sanitize && this.maxBatch == maxBatch
    {
      this.maxBatch, this.sanitize, this.wire, this.cancelled := maxBatch, sanitize, wire, cancelled;
      buffer, pending, nextId, sends, server := [], [], 0, 0, Server({}, []);
      accepted, delivered := [], [];
    }

    /** The batches are sized, and their ids fresh: only the first pending one may have reached the server. */
    ghost predicate Queued()
      reads this
    {
      && maxBatch > 0
      && (forall b :: b in pending ==> 1 <= |b.lines| <= maxBatch && b.id < nextId)
      && (forall i, j :: 0 <= i < j < |pending| ==> pending[i].id != pending[j].id)
      && (forall id :: id in server.seen ==> id < nextId)
      && (forall i :: 1 <= i < |pending| ==> pending[i].id !in server.seen)
    }

    /** Every accepted line is delivered, pending or buffered, in order; the server is at most one batch ahead. */
    ghost predicate Ordered()
      reads this
    {
      && delivered + Lines(pending) + buffer == accepted
      && server.held == if pending != [] && pending[0].id in server.seen then delivered + pending[0].lines else delivered
    }

    ghost predicate Valid()
      reads this
    {
      Queued() && Ordered() && |buffer| < maxBatch
    }

    /** A server that drops repeats holds the accepted lines up to some point, each once. */
    lemma HeldIsPrefix()
      requires Valid()
      ensures server.held <= accepted
    {
      if pending != [] {
        assert accepted == delivered + pending[0].lines + (Lines(pending[1..]) + buffer);
      }
    }

    method AppendLines(lines: seq<string>)
      requires Valid()
      modifies this
      ensures Valid() && accepted == old(accepted) + Accepted(sanitize, lines)
    {
      for i := 0 to |lines|
        invariant Valid() && accepted == old(accepted) + Accepted(sanitize, lines[..i])
      {
        assert lines[..i + 1][..i] == lines[..i];
        var trimmed := TrimSpace(lines[i]);
        if trimmed != "" { AppendLine(sanitize(trimmed)); }
      }
      assert lines[..|lines|] == lines;
    }

    method AppendLine(line: string)
      requires Valid()
      modifies this
      ensures Valid() && accepted == old(accepted) + [line]
    {
      buffer := buffer + [line];
      accepted := accepted + [line];
      assert delivered + Lines(pending) + buffer == accepted;
      if |buffer| >= maxBatch { Flush(); }
    }

    /** The sends from `from` to `to - 1` all failed; they were three, or the context was done after the last. */
    predicate GaveUp(from: nat, to: nat) {
      && from < to <= from + 3 && (forall k :: from <= k < to ==> !wire(k).Done?)
      && (to < from + 3 ==> cancelled(to - 1))
    }

    /**
     * A full buffer is flushed before more is accepted. When no send fails, the server holds everything. Batches are
     * left over only when the first of them was given up.
     */
    method Flush()
      requires Queued() && Ordered() && |buffer| <= maxBatch
      modifies this
      ensures Valid() && accepted == old(accepted) && buffer == []
      ensures (forall k :: wire(k).Done?) ==> pending == [] && server.held == accepted
      ensures pending == [] || exists from :: old(sends) <= from && GaveUp(from, sends)
    {
      if |buffer| > 0 { Enqueue(); }
      while |pending| > 0
        invariant Queued() && Ordered() && buffer == [] && accepted == old(accepted) && old(sends) <= sends
        decreases |pending|
      {
        var ok := Deliver();
        if !ok {
          assert !wire(sends - 1).Done?;
          return;
        }
        Drop();
      }
    }

    method Enqueue()
      requires Queued() && Ordered() && 0 < |buffer| <= maxBatch
      modifies this
      ensures Queued() && Ordered() && buffer == [] && accepted == old(accepted) && sends == old(sends)
    {
      var batch := Batch(nextId, buffer);
      LinesMore(pending, batch);
      pending := pending + [batch];
      nextId := nextId + 1;
      buffer := [];
    }

    /** Up to three sends of the first pending batch, under its one id. */
    method Deliver() returns (ok: bool)
      requires Queued() && Ordered() && pending != []
      modifies this`sends, this`server
      ensures Queued() && Ordered() && (ok ==> pending[0].id in server.seen)
      ensures old(sends) < sends <= old(sends) + 3 && forall k :: old(sends) <= k < sends - 1 ==> !wire(k).Done?
      ensures if ok then wire(sends - 1).Done? else GaveUp(old(sends), sends)
    {
      var batch := pending[0];
      ok := false;
      for attempt := 0 to 3
        invariant Queued() && Ordered() && pending == old(pending) && sends == old(sends) + attempt
        invariant !ok && forall k :: old(sends) <= k < sends ==> !wire(k).Done?
      {
        ok := Send(batch);
        if ok { return; }
        if attempt < 2 && cancelled(sends - 1) { return; }
      }
    }

    method Send(batch: Batch) returns (ok: bool)
      requires Queued() && Ordered() && pending != [] && batch == pending[0]
      modifies this`sends, this`server
      ensures Queued() && Ordered() && sends == old(sends) + 1
      ensures (ok ==> batch.id in server.seen) && (ok <==> wire(old(sends)).Done?)
    {
      var outcome := wire(sends);
      sends := sends + 1;
      if !outcome.Refused? { server := Received(server, batch); }
      ok := outcome.Done?;
    }

    /** A delivered batch leaves the queue. */
    method Drop()
      requires Queued() && Ordered() && pending != [] && pending[0].id in server.seen
      modifies this`pending, this`delivered
      ensures Queued() && Ordered() && pending == old(pending)[1..]
    {
      delivered := delivered + pending[0].lines;
      pending := pending[1..];
    }
  }

  /** The logger of rule deploys: one send, and whatever it held is forgotten. */
  class RuleDeployLogger {
    const maxBatch: nat
    const wire: nat -> Outcome
    var buffer: seq<string>
    var sends: nat
    var held: seq<string>
    ghost var accepted: seq<string>
    ghost var intact: bool

    constructor (maxBatch: nat, wire: nat -> Outcome)
      requires maxBatch > 0
      ensures Valid() && accepted == [] && intact
    {
      this.maxBatch, this.wire := maxBatch, wire;
      buffer, sends, held, accepted, intact := [], 0, [], [], true;
    }

    /** `intact` says that no flush was refused so far; then, and only then, is nothing missing. */
    ghost predicate Valid()
      reads this
    {
      && maxBatch > 0 && |buffer| < maxBatch
      && (if intact then held + buffer == accepted else |held| + |buffer| < |accepted|)
    }

    method AppendLines(lines: seq<string>)
      requires Valid()
      modifies this
      ensures Valid() && accepted == old(accepted) + Accepted(s => s, lines)
    {
      for i := 0 to |lines|
        invariant Valid() && accepted == old(accepted) + Accepted(s => s, lines[..i])
      {
        assert lines[..i + 1][..i] == lines[..i];
        var trimmed := TrimSpace(lines[i]);
        if trimmed != "" {
          buffer := buffer + [trimmed];
          accepted := accepted + [trimmed];
          assert intact ==> held + buffer == accepted;
          if |buffer| >= maxBatch { Flush(); }
        }
      }
      assert lines[..|lines|] == lines;
    }

    method Flush()
      requires maxBatch > 0 && (if intact then held + buffer == accepted else |held| + |buffer| < |accepted|)
      modifies this
      ensures Valid() && accepted == old(accepted) && buffer == []
      ensures intact <==> old(intact) && (old(buffer) == [] || !wire(old(sends)).Refused?)
    {
      if |buffer| == 0 { return; }
      var outcome := wire(sends);
      sends := sends + 1;
      if outcome.Refused? { intact := false; } else { held := held + buffer; }
      buffer := [];
    }
  }
}
