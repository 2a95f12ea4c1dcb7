/** The periodic messages: what they announce is exact, and the next one is due within the interval announced. */
module Cadence {
  import opened Arithmetic
  import opened Types
  import opened Rules
  import opened Steps
  import opened History
  import opened Rest

  lemma CentisExact(d: int)
    requires 0 <= d <= 0xFFFF * CENTISECOND && MultipleOfCentisecond(d)
    ensures WireTime(Centis(d)) == d
  {
  }

  lemma HelloMultiple(cfg: LiveConfig, l: LinkState)
    ensures MultipleOfCentisecond(HelloInterval(cfg, l))
  {
    hide LinkLocal;
  }

  lemma DoubleMultiple(d: int)
    requires MultipleOfCentisecond(d)
    ensures MultipleOfCentisecond(d * 2)
  {
    var q := d / CENTISECOND;
    assert d == q * CENTISECOND;
    EvenMultiple(q);
  }

  lemma EvenMultiple(q: int)
    ensures (q * CENTISECOND * 2) % CENTISECOND == 0
  {
    assert q * CENTISECOND * 2 == (q * 2) * 10_000_000;
  }

  /** The bounds of New and AddLink make the announced intervals fit the wire's field without truncation. */
  lemma {:induction false} IntervalsExact(cfg: LiveConfig, l: LinkState)
    ensures var d := HelloInterval(cfg, l); WireTime(Centis(d)) == d && WireTime(Centis(d * 2)) == d * 2
    ensures WireTime(Period(cfg)) == cfg.updateInterval
  {
    hide WireTime, Centis, MultipleOfCentisecond, BoundedLink;
    var d := HelloInterval(cfg, l);
    HelloMultiple(cfg, l);
    DoubleMultiple(d);
    CentisExact(d);
    CentisExact(d * 2);
    CentisExact(cfg.updateInterval);
  }

  /** m is queued on the link. */
  predicate Sends(st: State, id: LinkId, m: Message) { id in st.em.out && m in st.em.out[id] }

  /** A due Hello is queued, and the next ones fit into the neighbour's hold three times. */
  lemma HelloCadence(st: State, id: LinkId)
    requires id in st.links && st.links[id].nextHello <= st.now
    ensures var y, d := HelloTimer(st, id), HelloInterval(st.cfg, st.links[id]);
            && Sends(y, id, Hello(false, st.links[id].helloSeq, Centis(d)))
            && id in y.links && y.links[id].helloSeq == NextSeqno(st.links[id].helloSeq)
            && st.now < y.links[id].nextHello <= st.now + d
            && y.links[id].nextHello + 2 * d < st.now + Hold(WireTime(Centis(d)))
  {
    hide Jitter, NextRandom, HelloInterval, Centis, WireTime, BoundedLink, BoundedConfig;
    IntervalsExact(st.cfg, st.links[id]);
    HelloTimerLinks(st, id);
  }

  /** So is a due IHU, which reports the link's cost as long as its neighbour is heard. */
  lemma IHUCadence(st: State, id: LinkId)
    requires id in st.links && st.links[id].nextIHU <= st.now
    ensures var y, l := IHUTimer(st, id), st.links[id];
            var d := HelloInterval(st.cfg, l);
            && Sends(y, id, IHU(NoAddr, if Rules.Heard(l, st.now) then l.link.cost else INFINITY, Centis(d * 2)))
            && id in y.links && st.now < y.links[id].nextIHU <= st.now + d * 2
            && y.links[id].nextIHU + 4 * d < st.now + Hold(WireTime(Centis(d * 2)))
  {
    hide Jitter, NextRandom, HelloInterval, Centis, WireTime, Rules.Heard, BoundedLink, BoundedConfig;
    IntervalsExact(st.cfg, st.links[id]);
    IHUTimerLinks(st, id);
  }

  /** So are the next full updates, into the hold of a candidate made of one of them. */
  lemma UpdateCadence(st: State, id: LinkId)
    requires id in st.links && st.links[id].nextUpdate <= st.now
    ensures var y, d := UpdateTimer(st, id), st.cfg.updateInterval;
            && id in y.links && st.now < y.links[id].nextUpdate <= st.now + d
            && y.links[id].nextUpdate + 2 * d < st.now + Hold(WireTime(Period(st.cfg)))
  {
    hide Jitter, NextRandom, Dump, WireTime, Period, BoundedLink;
    IntervalsExact(st.cfg, st.links[id]);
    UpdateTimerLinks(st, id);
  }
}
