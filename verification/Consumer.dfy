/** The queue consumer: what each delivery leads to, and how it is settled. */
module Consumer {
  import opened Lease

  datatype Answer = Okay | Conflict | Failure

  datatype Fetched = Unreachable | Operation(queued: bool, compatible: bool)

  /**
   * A delivery, and how everything it meets will answer if asked: the pool control, the body, the API, and the
   * execution under its lease, from the moment the claim is held until processOperation reports or gives up.
   */
  datatype Delivery = Delivery(
    blocked: bool, decodes: bool, fetched: Fetched, claim: Answer, lease: Config, run: seq<State>, terminal: Answer,
    interrupted: bool)

  /** The context is done in the wait after a delivery that was put back. */
  predicate Halts(d: Delivery) { d.blocked && d.interrupted }

  /** The execution is some run of the lease protocol that has come to its end. */
  predicate WellRun(d: Delivery) {
    Run(d.lease, d.run) && d.run[|d.run| - 1].main.Returned?
  }

  function Final(d: Delivery): State
    requires WellRun(d)
  {
    d.run[|d.run| - 1]
  }

  datatype Settlement = Ack | Requeue | DeadLetter

  datatype Event =
    | Claimed(tag: nat, answer: Answer)
    | Reported(tag: nat, good: bool, answer: Answer)
    | Settled(tag: nat, how: Settlement)

  /** What processJob returns. */
  datatype Error = NoError | NotCompatible | OtherError

  /** The events of one delivery. */
  function Of(log: seq<Event>, tag: nat): seq<Event> {
    if log == [] then []
    else if log[|log| - 1].tag == tag then Of(log[..|log| - 1], tag) + [log[|log| - 1]]
    else Of(log[..|log| - 1], tag)
  }

  lemma {:induction false} OfAppended(log: seq<Event>, more: seq<Event>, tag: nat)
    requires forall i, j :: 0 <= i < |more| && 0 <= j < |more| ==> more[i].tag == more[j].tag
    ensures Of(log + more, tag) == if more != [] && more[0].tag == tag then Of(log, tag) + more else Of(log, tag)
  {
    if more == [] {
      assert log + more == log;
    } else {
      var front := more[..|more| - 1];
      assert (log + more)[..|log + more| - 1] == log + front;
      OfAppended(log, front, tag);
      assert front + [more[|more| - 1]] == more;
    }
  }

  /** Why a delivery may be acknowledged: nothing was left to do, another worker has it, or its end is recorded. */
  predicate MayAck(d: Delivery, calls: seq<Event>, tag: nat) {
    || (calls == [] && d.decodes && d.fetched.Operation? && !d.fetched.queued)
    || calls == [Claimed(tag, Conflict)]
    || (|calls| == 2 && calls[0] == Claimed(tag, Okay) && calls[1].Reported? && !calls[1].answer.Failure?)
  }

  /** The operation is there to be worked on, by this worker. */
  predicate Workable(d: Delivery) {
    d.decodes && d.fetched.Operation? && d.fetched.queued && d.fetched.compatible
  }

  /** It turns out that another kind of worker must do it. */
  predicate Misplaced(d: Delivery) {
    d.decodes && d.fetched.Operation? && d.fetched.queued && !d.fetched.compatible
  }

  /**
   * A claim is made exactly for workable operations, and a terminal status is sent exactly when the claim holds and
   * the lease protocol sends one, which it does only if no renewal failed.
   */
  predicate Truthful(d: Delivery, calls: seq<Event>, tag: nat)
    requires WellRun(d)
  {
    var final := Final(d);
    && calls ==
       (if !Workable(d) then []
        else if d.claim.Okay? && final.sent != [] then [Claimed(tag, d.claim), Reported(tag, final.sent[0], d.terminal)]
        else [Claimed(tag, d.claim)])
    && (final.sent != [] ==>
          && final.failures == 0 && final.sent == final.ended && final.attempts != []
          && (final.sent == [true] <==> final.attempts[|final.attempts| - 1].Fine?))
  }

  /** Everything about one delivery, from its calls to its one settlement. */
  predicate Proper(d: Delivery, events: seq<Event>, tag: nat)
    requires WellRun(d)
  {
    && events != [] && events[|events| - 1].Settled? && events[|events| - 1].tag == tag
    && var calls, how := events[..|events| - 1], events[|events| - 1].how;
    && (forall i :: 0 <= i < |calls| ==> !calls[i].Settled?)
    && (if d.blocked then calls == [] else Truthful(d, calls, tag))
    && (how.Requeue? <==> d.blocked || Misplaced(d))
    && (how.Ack? <==> !d.blocked && MayAck(d, calls, tag))
  }

  /** Each of the first `taken` deliveries has a proper row of events, and no other delivery has any. */
  ghost predicate AllProper(deliveries: seq<Delivery>, log: seq<Event>, taken: nat) {
    && taken <= |deliveries| && (forall d :: d in deliveries ==> WellRun(d))
    && (forall tag :: 0 <= tag < taken ==> Proper(deliveries[tag], Of(log, tag), tag))
    && (forall tag: nat :: taken <= tag ==> Of(log, tag) == [])
  }

  lemma OneMore(deliveries: seq<Delivery>, log: seq<Event>, events: seq<Event>, taken: nat)
    requires AllProper(deliveries, log, taken) && taken < |deliveries|
    requires forall i :: 0 <= i < |events| ==> events[i].tag == taken
    requires Proper(deliveries[taken], events, taken)
    ensures AllProper(deliveries, log + events, taken + 1)
  {
    forall tag: nat ensures Of(log + events, tag) == if tag == taken then events else Of(log, tag) {
      OfAppended(log, events, tag);
    }
  }

  class Worker {
    var log: seq<Event>

    constructor ()
      ensures log == []
    {
      log := [];
    }

    /** processOperation, after the fetch. */
    method ProcessOperation(tag: nat, d: Delivery) returns (error: Error)
      requires WellRun(d) && d.decodes && d.fetched.Operation?
      modifies this
      ensures old(log) <= log
      ensures var calls := log[|old(log)|..];
              && Truthful(d, calls, tag) && (error.NoError? <==> MayAck(d, calls, tag))
              && (error.NotCompatible? <==> Misplaced(d))
    {
      TerminalStatus(d.lease, d.run);
      if !d.fetched.queued { return NoError; }
      if !d.fetched.compatible { return NotCompatible; }
      log := log + [Claimed(tag, d.claim)];
      match d.claim
      case Conflict => return NoError;
      case Failure => return OtherError;
      case Okay =>
        if Final(d).main.lost { return OtherError; }
        error := Report(tag, Final(d).ended[0], d.terminal);
    }

    /** The terminal write, and failOperation's. */
    method Report(tag: nat, good: bool, answer: Answer) returns (error: Error)
      modifies this
      ensures log == old(log) + [Reported(tag, good, answer)]
      ensures error == if answer.Failure? then OtherError else NoError
    {
      log := log + [Reported(tag, good, answer)];
      error := if answer.Failure? then OtherError else NoError;
    }

    method ProcessJob(tag: nat, d: Delivery) returns (error: Error)
      requires WellRun(d)
      modifies this
      ensures old(log) <= log
      ensures var calls := log[|old(log)|..];
              && Truthful(d, calls, tag) && (error.NoError? <==> MayAck(d, calls, tag))
              && (error.NotCompatible? <==> Misplaced(d))
    {
      TerminalStatus(d.lease, d.run);
      if !d.decodes { return OtherError; }
      if d.fetched.Unreachable? { return OtherError; }
      error := ProcessOperation(tag, d);
    }

    /** One round of the consumer's loop. */
    method Handle(tag: nat, d: Delivery) returns (go: bool)
      requires WellRun(d)
      modifies this
      ensures old(log) <= log
      ensures var events := log[|old(log)|..];
              (forall i :: 0 <= i < |events| ==> events[i].tag == tag) && Proper(d, events, tag)
      ensures !go <==> d.blocked && d.interrupted
    {
      if d.blocked {
        log := log + [Settled(tag, Requeue)];
        return !d.interrupted;
      }
      ghost var was := log;
      var error := ProcessJob(tag, d);
      ghost var calls := log[|was|..];
      var how := if error.NoError? then Ack else if error.NotCompatible? then Requeue else DeadLetter;
      log := log + [Settled(tag, how)];
      assert log[|was|..] == calls + [Settled(tag, how)];
      assert (calls + [Settled(tag, how)])[..|calls|] == calls;
      return true;
    }

    /**
     * The consumer's loop over any prefix of what the queue delivers. Every delivery taken up has its events in one
     * proper row that ends in its one settlement, and no other delivery has any. Only a context that is done in the
     * wait after a blocked delivery ends the loop.
     */
    method Consume(deliveries: seq<Delivery>) returns (taken: nat)
      requires log == [] && forall d :: d in deliveries ==> WellRun(d)
      modifies this
      ensures AllProper(deliveries, log, taken)
      ensures forall i :: 0 <= i < taken - 1 ==> !Halts(deliveries[i])
      ensures taken == |deliveries| || (taken > 0 && Halts(deliveries[taken - 1]))
    {
      taken := 0;
      while taken < |deliveries|
        invariant AllProper(deliveries, log, taken) && forall i :: 0 <= i < taken ==> !Halts(deliveries[i])
      {
        ghost var was := log;
        assert deliveries[taken] in deliveries;
        var go := Handle(taken, deliveries[taken]);
        OneMore(deliveries, was, log[|was|..], taken);
        assert log == was + log[|was|..];
        taken := taken + 1;
        if !go { return; }
      }
    }
  }
}
