/** How the effects of `QueueSpec` compose: one transmission after another, one resent message more. */
module QueueAlgebra {
  import opened Common
  import opened QueueSpec

  lemma BurstExtends(
      w: multiset<OrderedMessage>, from: nat, link: nat -> bool, burst: seq<OrderedMessage>,
      m: OrderedMessage)
    requires BurstSoFar(w, from, link, burst)
    requires m in w - multiset(burst) && m.serverSeq == from + |burst| && link(m.serverSeq)
    requires !Covered(w - multiset(burst), m.serverSeq)
    ensures BurstSoFar(w, from, link, burst + [m])
    ensures w - multiset(burst + [m]) == w - multiset(burst) - multiset{m}
  {
    var longer := burst + [m];
    forall i: nat | i < |longer| ensures Surfaces(w, from, longer, i) {
      assert longer[..i] == burst[..i];
      if i < |burst| {
        assert Surfaces(w, from, burst, i);
      } else {
        assert burst[..i] == burst;
      }
    }
  }

  lemma NumberedConcat(a: seq<OrderedMessage>, b: seq<OrderedMessage>, from: nat)
    ensures Numbered(a + b, from) == Numbered(a, from) + Numbered(b, from + |a|)
  {
  }

  lemma SendsConcat(a: seq<OrderedMessage>, b: seq<OrderedMessage>, now: int)
    ensures Sends(a + b, now) == Sends(a, now) + Sends(b, now)
  {
  }

  /** Sending a single message, field by field. */
  lemma TransmitOne(s: Queue, m: OrderedMessage, now: int)
    ensures Transmit(s, [m], now) == s.(
              sent := s.sent[s.next := m.(sent := true)],
              next := s.next + 1,
              lastSent := s.next,
              firsts := s.firsts + [Transmission(m, now)])
  {
    assert Numbered([m], s.next) == map[s.next := m.(sent := true)];
    assert s.sent + map[s.next := m.(sent := true)] == s.sent[s.next := m.(sent := true)];
    assert Sends([m], now) == [Transmission(m, now)];
  }

  lemma TransmitConcat(s: Queue, a: seq<OrderedMessage>, b: seq<OrderedMessage>, now: int)
    ensures Transmit(s, a + b, now) == Transmit(Transmit(s, a, now), b, now)
  {
    NumberedConcat(a, b, s.next);
    SendsConcat(a, b, now);
    SeqAssoc(s.firsts, Sends(a, now), Sends(b, now));
    MapAssoc(s.sent, Numbered(a, s.next), Numbered(b, s.next + |a|));
  }

  ghost predicate CannotDrain(s: Queue, link: nat -> bool) {
    Covered(s.waiting, s.next) || !Parked(s.waiting, s.next) || !link(s.next)
  }

  lemma BurstEnds(s: Queue, link: nat -> bool, burst: seq<OrderedMessage>, now: int)
    requires BurstSoFar(s.waiting, s.next, link, burst)
    requires CannotDrain(Drained(s, burst, now), link)
    ensures IsBurst(s.waiting, s.next, link, burst)
  {
  }

  lemma DrainedNothing(s: Queue, link: nat -> bool, now: int)
    ensures BurstSoFar(s.waiting, s.next, link, []) && Drained(s, [], now) == s
  {
    assert s.waiting - multiset([]) == s.waiting;
    assert Numbered([], s.next) == map[];
    assert s.sent + map[] == s.sent;
    assert s.firsts + Sends([], now) == s.firsts;
  }

  lemma DrainedExtends(s: Queue, link: nat -> bool, burst: seq<OrderedMessage>, m: OrderedMessage, now: int)
    requires BurstSoFar(s.waiting, s.next, link, burst)
    requires m in s.waiting - multiset(burst) && m.serverSeq == s.next + |burst| && link(m.serverSeq)
    requires !Covered(s.waiting - multiset(burst), m.serverSeq)
    ensures BurstSoFar(s.waiting, s.next, link, burst + [m])
    ensures var before := Drained(s, burst, now);
            Drained(s, burst + [m], now) == Transmit(before.(waiting := before.waiting - multiset{m}), [m], now)
  {
    BurstExtends(s.waiting, s.next, link, burst, m);
    TransmitConcat(s, burst, [m], now);
    var before := Drained(s, burst, now);
    TransmitOne(before.(waiting := before.waiting - multiset{m}), m, now);
    TransmitOne(Transmit(s, burst, now), m, now);
  }

  /** Sending `m` and then draining, as one transmission. */
  lemma TransmitThenDrain(s: Queue, m: OrderedMessage, burst: seq<OrderedMessage>, now: int)
    ensures Drained(Transmit(s, [m], now), burst, now)
         == Transmit(s, [m] + burst, now).(waiting := s.waiting - multiset(burst))
  {
    TransmitConcat(s, [m], burst, now);
  }

  lemma ResendNothing(s: Queue, now: int)
    ensures ResendAll(s, {}, now) == s
  {
    assert RetriedAll(s.sent, {}, now) == s.sent;
    assert FramesOf(s.sent, {}) == {};
    assert s.resends + multiset{} == s.resends;
  }

  lemma ResendOneMore(s: Queue, ks: set<nat>, k: nat, now: int)
    requires ks <= s.sent.Keys && k in s.sent && k !in ks
    ensures ResendAll(s, ks, now).sent[k] == s.sent[k]
    ensures var before := ResendAll(s, ks, now);
            ResendAll(s, ks + {k}, now) == before.(
              sent := before.sent[k := Retried(s.sent[k], now)],
              resends := before.resends + multiset{Frame(k, s.sent[k].data)})
  {
    var f := Frame(k, s.sent[k].data);
    assert RetriedAll(s.sent, ks + {k}, now) == RetriedAll(s.sent, ks, now)[k := Retried(s.sent[k], now)];
    assert FramesOf(s.sent, ks + {k}) == FramesOf(s.sent, ks) + {f};
    assert multiset(FramesOf(s.sent, ks + {k})) == multiset(FramesOf(s.sent, ks)) + multiset{f};
  }
}
