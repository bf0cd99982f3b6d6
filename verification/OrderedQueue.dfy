/** The queue as the gateway runs it, each method proved to take one step of `QueueSpec`. */
module OrderedQueue {
  import opened Common
  import opened QueueSpec
  import opened QueueAlgebra
  import opened MessageHeap

  /** The root alone tells whether the expected number is a least parked one. */
  lemma RootDecides(items: seq<OrderedMessage>, n: nat)
    requires HeapOrdered(items) && |items| > 0
    ensures items[0] in multiset(items)
    ensures items[0].serverSeq == n ==> !Covered(multiset(items), n)
    ensures items[0].serverSeq != n ==> Covered(multiset(items), n) || !Parked(multiset(items), n)
  {
    RootIsLeastParked(items);
    assert items[0] in multiset(items);
  }

  class OrderedMessageQueue {
    var waitingQueue: MessageQueue
    var sentMessages: map<nat, OrderedMessage>
    var nextExpectedSeq: nat
    var lastSentSeq: nat
    var lastAckedSeq: nat
    const maxQueueSize: int
    var stopped: bool

    ghost var firsts: seq<Transmission>
    ghost var resends: multiset<Frame>
    ghost var skipped: set<nat>

    ghost predicate Valid()
      reads this, waitingQueue
    {
      waitingQueue.Valid()
    }

    ghost function State(): Queue
      reads this, waitingQueue
    {
      Queue(multiset(waitingQueue.items), sentMessages, nextExpectedSeq, lastSentSeq, lastAckedSeq,
            maxQueueSize, stopped, firsts, resends, skipped)
    }

    constructor (maxQueueSize: int)
      ensures Valid() && fresh(waitingQueue) && State() == Init(maxQueueSize)
    {
      waitingQueue := new MessageQueue([]);
      sentMessages := map[];
      nextExpectedSeq, lastSentSeq, lastAckedSeq := 1, 0, 0;
      this.maxQueueSize := maxQueueSize;
      stopped := false;
      firsts, resends, skipped := [], multiset{}, {};
    }

    method EnqueueMessage(n: nat, data: Bytes, now: int, link: nat -> bool)
      returns (r: Outcome, ghost burst: seq<OrderedMessage>)
      requires Valid()
      modifies this, waitingQueue
      ensures Valid() && waitingQueue == old(waitingQueue)
      ensures r == EnqueueOutcome(old(State()), n, link)
      ensures EnqueueEnabled(old(State()), n, link, burst)
      ensures State() == AfterEnqueue(old(State()), n, data, now, link, burst)
    {
      burst := [];
      if stopped {
        return Stopped, burst;
      }
      if |waitingQueue.items| >= maxQueueSize {
        return Full, burst;
      }
      if n == nextExpectedSeq {
        if !link(n) {
          return SendFailed, burst;
        }
        burst := SendExpected(n, data, now, link);
      } else if n > nextExpectedSeq {
        waitingQueue.Push(NewMessage(n, data, now));
      } else {
        return Stale, burst;
      }
      r := Accepted;
    }

    /** What follows when the message numbered `n`, the expected one, has got through. */
    method SendExpected(n: nat, data: Bytes, now: int, link: nat -> bool) returns (ghost burst: seq<OrderedMessage>)
      requires Valid() && n == nextExpectedSeq && EnqueueOutcome(State(), n, link) == Accepted
      modifies this, waitingQueue
      ensures Valid() && waitingQueue == old(waitingQueue)
      ensures EnqueueEnabled(old(State()), n, link, burst)
      ensures State() == AfterEnqueue(old(State()), n, data, now, link, burst)
    {
      ghost var was := State();
      var msg := NewMessage(n, data, now);
      MarkSent(msg, now);
      burst := ProcessWaitingMessages(now, link);
      TransmitThenDrain(was, msg, burst, now);
    }

    /** Records that `msg`, which carries the expected number, has gone out. */
    method MarkSent(msg: OrderedMessage, now: int)
      requires Valid() && msg.serverSeq == nextExpectedSeq
      modifies this
      ensures Valid() && waitingQueue == old(waitingQueue)
      ensures State() == Transmit(old(State()), [msg], now)
    {
      TransmitOne(State(), msg, now);
      sentMessages := sentMessages[msg.serverSeq := msg.(sent := true)];
      nextExpectedSeq := nextExpectedSeq + 1;
      lastSentSeq := msg.serverSeq;
      firsts := firsts + [Transmission(msg, now)];
    }

    /** One round of the drain, when the root carries the expected number: pop, send, and put back on failure. */
    method SendRoot(now: int, link: nat -> bool) returns (ok: bool, ghost msg: OrderedMessage)
      requires Valid() && |waitingQueue.items| > 0
      requires waitingQueue.items[0].serverSeq == nextExpectedSeq
      modifies this, waitingQueue
      ensures Valid() && waitingQueue == old(waitingQueue)
      ensures msg == old(waitingQueue.items[0]) && ok == link(msg.serverSeq)
      ensures !ok ==> State() == old(State())
      ensures ok ==> |waitingQueue.items| < |old(waitingQueue.items)|
      ensures ok ==> State() == Transmit(old(State()).(waiting := old(State()).waiting - multiset{msg}), [msg], now)
    {
      ghost var was := State();
      assert waitingQueue.items[0] in multiset(waitingQueue.items);
      var top := waitingQueue.Pop();
      msg := top;
      ok := link(top.serverSeq);
      if ok {
        assert State() == was.(waiting := was.waiting - multiset{top});
        assert |was.waiting| == |State().waiting| + 1;
        MarkSent(top, now);
      } else {
        waitingQueue.Push(top);
        assert was.waiting - multiset{top} + multiset{top} == was.waiting;
      }
    }

    /** Drains the heap for as long as its root carries the expected number. */
    method ProcessWaitingMessages(now: int, link: nat -> bool) returns (ghost burst: seq<OrderedMessage>)
      requires Valid()
      modifies this, waitingQueue
      ensures Valid() && waitingQueue == old(waitingQueue)
      ensures IsBurst(old(State()).waiting, old(State()).next, link, burst)
      ensures State() == Drained(old(State()), burst, now)
    {
      burst := [];
      ghost var was := State();
      DrainedNothing(was, link, now);
      var going := true;
      while going && |waitingQueue.items| > 0 && waitingQueue.items[0].serverSeq == nextExpectedSeq
        invariant Valid() && waitingQueue == old(waitingQueue)
        invariant BurstSoFar(was.waiting, was.next, link, burst)
        invariant State() == Drained(was, burst, now)
        invariant !going ==> CannotDrain(State(), link)
        decreases going, |waitingQueue.items|
      {
        RootDecides(waitingQueue.items, nextExpectedSeq);
        ghost var msg;
        going, msg := SendRoot(now, link);
        if going {
          DrainedExtends(was, link, burst, msg, now);
          burst := burst + [msg];
        }
      }
      if going && |waitingQueue.items| > 0 {
        RootDecides(waitingQueue.items, nextExpectedSeq);
      }
      BurstEnds(was, link, burst, now);
    }

    /** Deletes every entry that `a` acknowledges, and counts them. */
    method DeleteAcked(a: nat) returns (count: nat)
      modifies this`sentMessages
      ensures sentMessages == Above(old(sentMessages), a)
      ensures count == |old(sentMessages)| - |sentMessages|
    {
      count := 0;
      var keys := sentMessages.Keys;
      while keys != {}
        invariant keys <= sentMessages.Keys <= old(sentMessages).Keys
        invariant forall k | k in sentMessages :: sentMessages[k] == old(sentMessages)[k]
        invariant forall k | k in old(sentMessages) :: k in sentMessages <==> k > a || k in keys
        invariant count == |old(sentMessages)| - |sentMessages|
        decreases keys
      {
        var k :| k in keys;
        keys := keys - {k};
        if k <= a {
          ghost var was := sentMessages;
          sentMessages := sentMessages - {k};
          assert was.Keys == sentMessages.Keys + {k};
          assert |was.Keys| == |was| && |sentMessages.Keys| == |sentMessages|;
          count := count + 1;
        }
      }
      assert sentMessages == Above(old(sentMessages), a);
    }

    method AckMessagesUpTo(a: nat) returns (count: nat)
      requires Valid()
      modifies this
      ensures Valid() && waitingQueue == old(waitingQueue)
      ensures State() == AfterAck(old(State()), a)
      ensures count == |old(State()).sent| - |State().sent|
    {
      count := DeleteAcked(a);
      if a > lastAckedSeq {
        lastAckedSeq := a;
      }
    }

    /** Replaces the heap by one holding the parked messages that satisfy `p`. */
    method Rebuild(p: OrderedMessage -> bool)
      requires Valid()
      modifies this`waitingQueue
      ensures Valid() && fresh(waitingQueue)
      ensures State() == old(State()).(waiting := Keep(old(State()).waiting, p))
    {
      var kept := Filtered(waitingQueue.items, p);
      waitingQueue := new MessageQueue(kept);
    }

    method Advance(a: nat)
      requires Valid() && a >= nextExpectedSeq
      modifies this
      ensures Valid() && fresh(waitingQueue)
      ensures State() == Advanced(old(State()), a)
    {
      skipped := skipped + Span(nextExpectedSeq, a + 1);
      nextExpectedSeq := a + 1;
      lastSentSeq := a;
      Rebuild(NewerThan(a));
    }

    method ResyncSequence(a: nat)
      requires Valid()
      modifies this
      ensures Valid() && (waitingQueue == old(waitingQueue) || fresh(waitingQueue))
      ensures State() == AfterResync(old(State()), a)
    {
      var _ := DeleteAcked(a);
      if a >= nextExpectedSeq {
        Advance(a);
      }
      if a > lastAckedSeq {
        lastAckedSeq := a;
      }
    }

    /** Deletes every sent message that has used up its retries and its last wait. */
    method DeleteGivenUp(now: int)
      modifies this`sentMessages
      ensures sentMessages == Unexpired(old(sentMessages), now)
    {
      var keys := sentMessages.Keys;
      while keys != {}
        invariant keys <= sentMessages.Keys <= old(sentMessages).Keys
        invariant forall k | k in sentMessages :: sentMessages[k] == old(sentMessages)[k]
        invariant forall k | k in old(sentMessages) ::
                    k in sentMessages <==> !GivenUp(old(sentMessages)[k], now) || k in keys
        decreases keys
      {
        var k :| k in keys;
        keys := keys - {k};
        if GivenUp(sentMessages[k], now) {
          sentMessages := sentMessages - {k};
        }
      }
      assert sentMessages == Unexpired(old(sentMessages), now);
    }

    method CleanupExpiredMessages(now: int)
      requires Valid()
      modifies this
      ensures Valid() && fresh(waitingQueue)
      ensures State() == AfterCleanup(old(State()), now)
    {
      DeleteGivenUp(now);
      Rebuild(Timely(now));
    }

    /** Records that the sent message `k` has gone out once more. */
    method Resend(k: nat, now: int)
      requires Valid() && k in sentMessages
      modifies this`sentMessages, this`resends
      ensures Valid()
      ensures State() == old(State()).(
        sent := old(sentMessages)[k := Retried(old(sentMessages)[k], now)],
        resends := old(resends) + multiset{Frame(k, old(sentMessages)[k].data)})
    {
      resends := resends + multiset{Frame(k, sentMessages[k].data)};
      sentMessages := sentMessages[k := Retried(sentMessages[k], now)];
    }

    method RetryTimedOutMessages(now: int, link: nat -> bool)
      requires Valid()
      modifies this`sentMessages, this`resends
      ensures Valid()
      ensures State() == AfterRetry(old(State()), now, link)
    {
      ghost var was, done := State(), {};
      ResendNothing(was, now);
      var keys := sentMessages.Keys;
      while keys != {}
        invariant Valid() && keys <= was.sent.Keys && done !! keys
        invariant done <= Resent(was, now, link) <= done + keys
        invariant State() == ResendAll(was, done, now)
        decreases keys
      {
        var k :| k in keys;
        keys := keys - {k};
        ResendOneMore(was, done, k, now);
        if Due(sentMessages[k], now) && link(k) {
          Resend(k, now);
          done := done + {k};
        }
      }
      assert done == Resent(was, now, link);
    }

    method Stop()
      requires Valid()
      modifies this
      ensures Valid() && (waitingQueue == old(waitingQueue) || fresh(waitingQueue))
      ensures State() == AfterStop(old(State()))
    {
      if !stopped {
        stopped := true;
        waitingQueue := new MessageQueue([]);
        sentMessages := map[];
      }
    }
  }

  lemma KeepOneMore(w: multiset<OrderedMessage>, m: OrderedMessage, p: OrderedMessage -> bool)
    ensures Keep(w + multiset{m}, p) == Keep(w, p) + if p(m) then multiset{m} else multiset{}
  {
  }

  /** The items that satisfy `p`, in their order. */
  method Filtered(items: seq<OrderedMessage>, p: OrderedMessage -> bool) returns (r: seq<OrderedMessage>)
    ensures multiset(r) == Keep(multiset(items), p)
  {
    r := [];
    for i := 0 to |items|
      invariant multiset(r) == Keep(multiset(items[..i]), p)
    {
      assert items[..i + 1] == items[..i] + [items[i]];
      KeepOneMore(multiset(items[..i]), items[i], p);
      if p(items[i]) {
        r := r + [items[i]];
      }
    }
    assert items[..|items|] == items;
  }
}
