/** What the backup exports of a queue, and the check its receiver applies. */
module Validator {
  import opened Common
  import opened QueueSpec
  import opened QueueAcks

  const TWO_63: int := 0x8000_0000_0000_0000
  const TWO_64: int := 0x1_0000_0000_0000_0000

  /** `pendingCount` and `queueSize` are signed in the record; the sequence numbers are 64-bit unsigned. */
  datatype QueueMetadata =
    QueueMetadata(nextExpectedSeq: nat, lastSentSeq: nat, lastAckedSeq: nat, pendingCount: int, queueSize: int)

  datatype Verdict = Valid | AckedBeyondSent | NextIsZero | NegativePending | NegativeSize | TooManyPending

  function ToInt64(x: nat): int {
    var low := x % TWO_64;
    if low < TWO_63 then low else low - TWO_64
  }

  /** The check, with the tolerance as a parameter. */
  function Check(meta: QueueMetadata, slack: nat): Verdict {
    if meta.lastAckedSeq > meta.lastSentSeq then AckedBeyondSent
    else if meta.nextExpectedSeq == 0 then NextIsZero
    else if meta.pendingCount < 0 then NegativePending
    else if meta.queueSize < 0 then NegativeSize
    else if meta.pendingCount > ToInt64(meta.lastSentSeq - meta.lastAckedSeq + slack) then TooManyPending
    else Valid
  }

  function ValidateQueue(meta: QueueMetadata): Verdict {
    Check(meta, 10)
  }

  /** The export leaves the queue size at its default. */
  ghost function Export(s: Queue): QueueMetadata {
    QueueMetadata(s.next, s.lastSent, s.lastAcked, |s.sent|, 0)
  }

  /** A queue whose window holds is valid, even with no tolerance. */
  lemma WindowIsValid(s: Queue, slack: nat)
    requires Window(s) && s.lastSent + slack < TWO_63
    ensures Check(Export(s), slack) == Valid
  {
    PendingFitsWindow(s);
  }

  /**
   Right after an acknowledgement, before anything else happens, the export is valid exactly
   when the client acknowledged something sent.
   */
  lemma HalfwayAckIsValidIff(s: Queue, a: nat)
    requires Window(s) && s.lastSent + 10 < TWO_63
    ensures ValidateQueue(Export(AfterAck(s, a))) == Valid <==> a <= s.lastSent
    ensures a > s.lastSent ==> ValidateQueue(Export(AfterAck(s, a))) == AckedBeyondSent
  {
    if a <= s.lastSent {
      WindowIsValid(AfterAck(s, a), 10);
    }
  }

  /**
   In every run of a new queue, an export taken when no ack handler is half way is accepted
   without using the tolerance.
   */
  lemma ExportsAreValid(states: seq<Handled>, steps: seq<HandlerStep>, cap: int, i: nat)
    requires IsHandlerRun(states, steps) && states[0] == Handled(Init(cap), multiset{}) && i < |states|
    requires states[i].inFlight == multiset{} && states[i].queue.lastSent + 10 < TWO_63
    ensures ValidateQueue(Export(states[i].queue)) == Check(Export(states[i].queue), 0) == Valid
  {
    WindowRun(states, steps, cap, i);
    WindowIsValid(states[i].queue, 0);
    WindowIsValid(states[i].queue, 10);
  }

  /** No export of the run is rejected. */
  ghost predicate AllExportsValid(states: seq<Handled>) {
    forall i | 0 <= i < |states| :: ValidateQueue(Export(states[i].queue)) == Valid
  }

  /**
   Half-way points included, a run has only valid exports exactly when its client
   acknowledges only what was sent; and then the tolerance is never used.
   */
  lemma ExportsAreValidIff(states: seq<Handled>, steps: seq<HandlerStep>, cap: int)
    requires IsHandlerRun(states, steps) && states[0] == Handled(Init(cap), multiset{})
    requires forall i | 0 <= i < |states| :: states[i].queue.lastSent + 10 < TWO_63
    ensures AllExportsValid(states) <==> AcksWithinSent(states, steps, |steps|)
    ensures AllExportsValid(states) ==> forall i | 0 <= i < |states| :: Check(Export(states[i].queue), 0) == Valid
  {
    if AcksWithinSent(states, steps, |steps|) {
      forall i | 0 <= i < |states|
        ensures ValidateQueue(Export(states[i].queue)) == Check(Export(states[i].queue), 0) == Valid
      {
        TightWindowRun(states, steps, cap, i);
        WindowIsValid(states[i].queue, 0);
        WindowIsValid(states[i].queue, 10);
      }
    } else {
      var j :| 0 <= j < |steps| && steps[j].BeginAck? && steps[j].a > states[j].queue.lastSent;
      EarlyAckAt(states, steps, cap, j);
      assert ValidateQueue(Export(states[j + 1].queue)) == AckedBeyondSent;
    }
  }


  /**
   Of counters that stay in range, the pending count is the reason for a rejection exactly if
   it exceeds what lies between the other two by more than ten.
   */
  lemma TooManyPendingIff(meta: QueueMetadata)
    requires meta.lastSentSeq < TWO_63 - 10
    ensures ValidateQueue(meta) == TooManyPending <==>
              && meta.lastAckedSeq <= meta.lastSentSeq && meta.nextExpectedSeq > 0 && meta.queueSize >= 0
              && meta.pendingCount > meta.lastSentSeq - meta.lastAckedSeq + 10
    ensures ValidateQueue(meta) == AckedBeyondSent <==> meta.lastAckedSeq > meta.lastSentSeq
    ensures ValidateQueue(meta) == Valid <==>
              && meta.lastAckedSeq <= meta.lastSentSeq && meta.nextExpectedSeq > 0
              && 0 <= meta.pendingCount <= meta.lastSentSeq - meta.lastAckedSeq + 10 && meta.queueSize >= 0
  {
  }

  /** An export shows the counters, and how many messages are kept. */
  lemma ExportShows(s: Queue)
    ensures var meta := Export(s);
            && meta.nextExpectedSeq == s.next && meta.lastSentSeq == s.lastSent && meta.lastAckedSeq == s.lastAcked
            && meta.pendingCount == |s.sent.Keys| && meta.queueSize == 0
  {
  }

  /** In a run it takes an ack handler half way, and more than ten messages kept that the client has acknowledged. */
  lemma TooManyPendingWhen(states: seq<Handled>, steps: seq<HandlerStep>, cap: int, i: nat)
    requires IsHandlerRun(states, steps) && states[0] == Handled(Init(cap), multiset{}) && i < |states|
    requires states[i].queue.lastSent < TWO_63 - 10
    requires ValidateQueue(Export(states[i].queue)) == TooManyPending
    ensures states[i].inFlight != multiset{}
    ensures var s := states[i].queue; |set k | k in s.sent && k <= s.lastAcked| > 10
  {
    var s := states[i].queue;
    WindowRun(states, steps, cap, i);
    if states[i].inFlight == multiset{} {
      WindowIsValid(s, 10);
    }
    var acked, open := set k | k in s.sent && k <= s.lastAcked, set k | k in s.sent && k > s.lastAcked;
    assert s.sent.Keys == acked + open && |s.sent| == |s.sent.Keys|;
    SpanSize(s.lastAcked + 1, s.lastSent + 1);
    SubsetSize(open, Span(s.lastAcked + 1, s.lastSent + 1));
  }
}
