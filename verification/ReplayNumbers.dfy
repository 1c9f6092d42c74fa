/** What a run of gated dispatches does to one session's numbers. */
module ReplayNumbers {
  import opened Prelude
  import opened ReplayClient

  /** The numbers `es` carries for session `s`, in order. */
  function Nums(es: seq<Event>, s: Session): seq<int> {
    if es == [] then []
    else
      var e := es[|es| - 1];
      Nums(es[..|es| - 1], s) + (if Numbered(e) && e.sid == s then [e.seqno.n] else [])
  }

  /** The numbers handed to the handlers for `s` while the client was in `epoch`. */
  function Seqs(ds: seq<Delivery>, epoch: Option<Epoch>, s: Session): seq<int> {
    if ds == [] then []
    else
      var d := ds[|ds| - 1];
      Seqs(ds[..|ds| - 1], epoch, s)
      + (if d.epoch == epoch && Numbered(d.event) && d.event.sid == s then [d.event.seqno.n] else [])
  }

  ghost predicate Increasing(ns: seq<int>) {
    forall i, j :: 0 <= i < j < |ns| ==> ns[i] < ns[j]
  }

  /** `lo + 1, ..., hi`; empty when `hi <= lo`. */
  function Span(lo: int, hi: int): seq<int> {
    seq(Max(hi - lo, 0), i => lo + 1 + i)
  }

  /** The highest of a mark and the numbers that follow it. */
  function Top(m: int, ns: seq<int>): int {
    if ns == [] then m else Max(Top(m, ns[..|ns| - 1]), ns[|ns| - 1])
  }

  /** The numbers a gate that starts at `m` lets through. */
  function Accepted(m: int, ns: seq<int>): seq<int> {
    if ns == [] then []
    else
      var n := ns[|ns| - 1];
      Accepted(m, ns[..|ns| - 1]) + (if n > Top(m, ns[..|ns| - 1]) then [n] else [])
  }

  lemma {:induction false} NumsConcat(a: seq<Event>, b: seq<Event>, s: Session)
    ensures Nums(a + b, s) == Nums(a, s) + Nums(b, s)
  {
    if b == [] {
      assert a + b == a;
    } else {
      assert (a + b)[..|a + b| - 1] == a + b[..|b| - 1];
      NumsConcat(a, b[..|b| - 1], s);
    }
  }

  /** A gate lets through an increasing run above its mark, and ends at its top. */
  lemma {:induction false} GateIncreases(m: int, ns: seq<int>)
    ensures Increasing(Accepted(m, ns))
    ensures m <= Top(m, ns) && (Top(m, ns) == m || Top(m, ns) in ns)
    ensures Accepted(m, ns) == [] ==> Top(m, ns) == m
    ensures Accepted(m, ns) != [] ==>
              m < Accepted(m, ns)[0] && Accepted(m, ns)[|Accepted(m, ns)| - 1] == Top(m, ns)
  {
    if ns != [] {
      GateIncreases(m, ns[..|ns| - 1]);
    }
  }

  lemma {:induction false} GateConcat(m: int, a: seq<int>, b: seq<int>)
    ensures Accepted(m, a + b) == Accepted(m, a) + Accepted(Top(m, a), b)
    ensures Top(m, a + b) == Top(Top(m, a), b)
  {
    if b == [] {
      assert a + b == a;
    } else {
      assert (a + b)[..|a + b| - 1] == a + b[..|b| - 1];
      GateConcat(m, a, b[..|b| - 1]);
    }
  }

  lemma {:induction false} GateSpan(m: int, lo: int, hi: int)
    ensures Accepted(m, Span(lo, hi)) == Span(Max(m, lo), hi)
    ensures Top(m, Span(lo, hi)) == if lo < hi then Max(m, hi) else m
    decreases hi - lo
  {
    if lo < hi {
      assert Span(lo, hi)[..|Span(lo, hi)| - 1] == Span(lo, hi - 1);
      GateSpan(m, lo, hi - 1);
    }
  }

  /** One gated event, as session `s` sees it. */
  ghost predicate Released(c: Client, d: Client, ns: seq<int>, s: Session) {
    && d == c.(lastSeen := d.lastSeen, sessions := d.sessions, delivered := d.delivered)
    && Seqs(d.delivered, c.epoch, s) == Seqs(c.delivered, c.epoch, s) + Accepted(Watermark(c, s), ns)
    && Watermark(d, s) == Top(Watermark(c, s), ns)
    && (s in d.lastSeen <==> s in c.lastSeen || Accepted(Watermark(c, s), ns) != [])
    && forall epoch :: epoch != c.epoch ==> Seqs(d.delivered, epoch, s) == Seqs(c.delivered, epoch, s)
  }

  lemma DeliverOne(ds: seq<Delivery>, d: Delivery, epoch: Option<Epoch>, s: Session)
    ensures Seqs(ds + [d], epoch, s)
            == Seqs(ds, epoch, s)
               + (if d.epoch == epoch && Numbered(d.event) && d.event.sid == s then [d.event.seqno.n] else [])
  {
  }

  lemma DispatchOneBySession(c: Client, e: Event, s: Session)
    ensures Released(c, DispatchIfNewer(c, e), if Numbered(e) && e.sid == s then [e.seqno.n] else [], s)
  {
    forall epoch {
      DeliverOne(c.delivered, Delivery(c.epoch, e), epoch, s);
    }
    if Numbered(e) {
      assert [e.seqno.n][..0] == [];
    }
  }

  /**
   * Gated release, session by session: the handlers see exactly what the gate
   * lets through, and the watermark ends at the top. Nothing else moves.
   */
  lemma {:induction false} DispatchAllBySession(c: Client, es: seq<Event>, s: Session)
    ensures Released(c, DispatchAll(c, es), Nums(es, s), s)
  {
    if es != [] {
      var mid, e := DispatchAll(c, es[..|es| - 1]), es[|es| - 1];
      DispatchAllBySession(c, es[..|es| - 1], s);
      DispatchOneBySession(mid, e, s);
      ReleasedTwice(c, mid, DispatchIfNewer(mid, e), Nums(es[..|es| - 1], s),
                    if Numbered(e) && e.sid == s then [e.seqno.n] else [], s);
    }
  }

  lemma ReleasedTwice(c: Client, mid: Client, d: Client, a: seq<int>, b: seq<int>, s: Session)
    requires Released(c, mid, a, s) && Released(mid, d, b, s)
    ensures Released(c, d, a + b, s)
  {
    GateConcat(Watermark(c, s), a, b);
  }

  lemma {:induction false} DispatchAllConcat(c: Client, a: seq<Event>, b: seq<Event>)
    ensures DispatchAll(c, a + b) == DispatchAll(DispatchAll(c, a), b)
  {
    if b == [] {
      assert a + b == a;
    } else {
      assert (a + b)[..|a + b| - 1] == a + b[..|b| - 1];
      DispatchAllConcat(c, a, b[..|b| - 1]);
    }
  }

  lemma {:induction false} DispatchAllIgnoresHold(c: Client, es: seq<Event>, h: Option<Hold>)
    ensures DispatchAll(c.(hold := h), es) == DispatchAll(c, es).(hold := h)
  {
    if es != [] {
      DispatchAllIgnoresHold(c, es[..|es| - 1], h);
    }
  }

  ghost predicate SessionsListed(c: Client) {
    Distinct(c.sessions) && forall s :: s in c.sessions <==> s in c.lastSeen
  }

  lemma {:induction false} DispatchAllKeepsList(c: Client, es: seq<Event>)
    requires SessionsListed(c)
    ensures SessionsListed(DispatchAll(c, es))
  {
    if es != [] {
      DispatchAllKeepsList(c, es[..|es| - 1]);
    }
  }

  lemma {:induction false} ParkedNums(order: seq<Session>, parked: map<Session, seq<Event>>, s: Session)
    requires Distinct(order)
    requires forall x, i :: x in parked && 0 <= i < |parked[x]| ==> parked[x][i].sid == x
    ensures Nums(ParkedInOrder(order, parked), s) == if s in order && s in parked then Nums(parked[s], s) else []
  {
    if order != [] {
      var front, last := order[..|order| - 1], order[|order| - 1];
      ParkedNums(front, parked, s);
      assert order == front + [last];
      var frames := if last in parked then parked[last] else [];
      NumsConcat(ParkedInOrder(front, parked), frames, s);
      if last != s {
        NumsOfOthers(frames, s);
      }
    }
  }

  lemma {:induction false} NumsOfOthers(es: seq<Event>, s: Session)
    requires forall i :: 0 <= i < |es| ==> es[i].sid != s
    ensures Nums(es, s) == []
  {
    if es != [] {
      NumsOfOthers(es[..|es| - 1], s);
    }
  }
}
