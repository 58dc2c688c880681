/** Every step moves each handler from one place to one place. */
module SchedulerPlaces {
  import opened SchedulerState
  import opened Wrappers
  import opened SchedulerInvariant

  // --- the tables alone ---

  ghost predicate Same(v: Tables, v1: Tables, id: HandlerId) {
    forall p: Place :: Holds(v1, p, id) <==> Holds(v, p, id)
  }

  lemma Stay(v: Tables, v1: Tables, place: map<HandlerId, Place>, next: HandlerId)
    requires Placed(v, place, next) && forall k :: Same(v, v1, k)
    ensures Placed(v1, place, next)
  {
    forall p: Place, k: HandlerId ensures Holds(v1, p, k) <==> k in place && place[k] == p {
      assert Same(v, v1, k);
    }
  }

  // Handler `id` goes to `to`; it is one already placed or the next new one.
  lemma Move(v: Tables, v1: Tables, place: map<HandlerId, Place>, next: HandlerId, id: HandlerId, to: Place)
    requires Placed(v, place, next) && id <= next
    requires forall k | k != id :: Same(v, v1, k)
    requires forall p: Place :: Holds(v1, p, id) <==> p == to
    ensures Placed(v1, place[id := to], if id == next then next + 1 else next)
  {
    forall p: Place, k: HandlerId ensures Holds(v1, p, k) <==> k in place[id := to] && place[id := to][k] == p {
      if k != id { assert Same(v, v1, k); }
    }
  }

  predicate NotTask(q: map<nat, Closure>, t: nat) {
    t in q ==> !q[t].Task?
  }

  lemma QueueStays(v: Tables, v1: Tables, place: map<HandlerId, Place>, next: HandlerId)
    requires Placed(v, place, next) && v1 == v.(queue := v1.queue)
    requires forall t ::
               if NotTask(v.queue, t) then NotTask(v1.queue, t) else t in v1.queue && v1.queue[t] == v.queue[t]
    ensures Placed(v1, place, next)
  {
    forall k ensures Same(v, v1, k) {
      forall p: Place ensures Holds(v1, p, k) <==> Holds(v, p, k) {
        if p.Queued? { assert NotTask(v.queue, p.ticket) ==> NotTask(v1.queue, p.ticket); }
      }
    }
    Stay(v, v1, place, next);
  }

  lemma PushStays(v: Tables, c: Ctl, place: map<HandlerId, Place>, next: HandlerId)
    requires Placed(v, place, next) && HandlerIn(c) == None
    ensures Placed(v.(ctl := v.ctl + [c]), place, next)
  {
    var v1 := v.(ctl := v.ctl + [c]);
    forall k ensures Same(v, v1, k) {}
    Stay(v, v1, place, next);
  }

  lemma PopStays(v: Tables, place: map<HandlerId, Place>, next: HandlerId)
    requires Placed(v, place, next) && v.ctl != [] && HandlerIn(v.ctl[|v.ctl| - 1]) == None
    ensures Placed(v.(ctl := v.ctl[..|v.ctl| - 1]), place, next)
  {
    var v1 := v.(ctl := v.ctl[..|v.ctl| - 1]);
    forall k ensures Same(v, v1, k) {}
    Stay(v, v1, place, next);
  }

  lemma Submit(v: Tables, t: nat, c: Closure, place: map<HandlerId, Place>, next: HandlerId)
    requires Placed(v, place, next) && t !in v.queue && c.Task? && c.id == next
    ensures Placed(v.(queue := v.queue[t := c]), place[next := Queued(t)], next + 1)
  {
    var v1 := v.(queue := v.queue[t := c]);
    forall k | k != next ensures Same(v, v1, k) {}
    forall p: Place ensures Holds(v1, p, next) <==> p == Queued(t) { assert !Holds(v, p, next); }
    Move(v, v1, place, next, next, Queued(t));
  }

  lemma PushNew(v: Tables, c: Ctl, place: map<HandlerId, Place>, next: HandlerId)
    requires Placed(v, place, next) && HandlerIn(c) == Some(next)
    ensures Placed(v.(ctl := v.ctl + [c]), place[next := OnStack(|v.ctl|)], next + 1)
  {
    var v1 := v.(ctl := v.ctl + [c]);
    forall k | k != next ensures Same(v, v1, k) {}
    forall p: Place ensures Holds(v1, p, next) <==> p == OnStack(|v.ctl|) { assert !Holds(v, p, next); }
    Move(v, v1, place, next, next, OnStack(|v.ctl|));
  }

  lemma SettleNew(v: Tables, r: Result, place: map<HandlerId, Place>, next: HandlerId)
    requires Placed(v, place, next)
    ensures Placed(v.(settled := v.settled + [Settlement(next, r)]), place[next := Settled(|v.settled|)], next + 1)
  {
    var v1 := v.(settled := v.settled + [Settlement(next, r)]);
    forall k | k != next ensures Same(v, v1, k) {}
    forall p: Place ensures Holds(v1, p, next) <==> p == Settled(|v.settled|) { assert !Holds(v, p, next); }
    Move(v, v1, place, next, next, Settled(|v.settled|));
  }

  lemma PutNew(v: Tables, co: Co, hd: Handler, place: map<HandlerId, Place>, next: HandlerId)
    requires Placed(v, place, next) && co !in v.completions && hd.id == next
    ensures Placed(v.(completions := v.completions[co := hd]), place[next := AtCo(co)], next + 1)
  {
    var v1 := v.(completions := v.completions[co := hd]);
    forall k | k != next ensures Same(v, v1, k) {}
    forall p: Place ensures Holds(v1, p, next) <==> p == AtCo(co) { assert !Holds(v, p, next); }
    Move(v, v1, place, next, next, AtCo(co));
  }

  lemma QueueToStack(v: Tables, t: nat, c: Ctl, place: map<HandlerId, Place>, next: HandlerId)
    requires Placed(v, place, next) && t in v.queue && v.queue[t].Task?
    requires HandlerIn(c) == Some(v.queue[t].id)
    ensures Placed(v.(queue := v.queue - {t}, ctl := v.ctl + [c]),
                   place[v.queue[t].id := OnStack(|v.ctl|)], next)
  {
    var v1 := v.(queue := v.queue - {t}, ctl := v.ctl + [c]);
    var id := v.queue[t].id;
    assert Holds(v, Queued(t), id);
    forall k | k != id ensures Same(v, v1, k) {}
    forall p: Place ensures Holds(v1, p, id) <==> p == OnStack(|v.ctl|) {
      assert Holds(v, p, id) <==> p == Queued(t);
    }
    Move(v, v1, place, next, id, OnStack(|v.ctl|));
  }

  lemma StackToLog(v: Tables, r: Result, place: map<HandlerId, Place>, next: HandlerId)
    requires Placed(v, place, next) && v.ctl != [] && v.ctl[|v.ctl| - 1].Deliver?
    ensures var id := v.ctl[|v.ctl| - 1].handler.id;
            Placed(v.(ctl := v.ctl[..|v.ctl| - 1], settled := v.settled + [Settlement(id, r)]),
                   place[id := Settled(|v.settled|)], next)
  {
    var n := |v.ctl| - 1;
    var id := v.ctl[n].handler.id;
    var v1 := v.(ctl := v.ctl[..n], settled := v.settled + [Settlement(id, r)]);
    assert Holds(v, OnStack(n), id);
    forall k | k != id ensures Same(v, v1, k) {}
    forall p: Place ensures Holds(v1, p, id) <==> p == Settled(|v.settled|) {
      assert Holds(v, p, id) <==> p == OnStack(n);
    }
    Move(v, v1, place, next, id, Settled(|v.settled|));
  }

  lemma StackToTable(v: Tables, co: Co, hd: Handler, place: map<HandlerId, Place>, next: HandlerId)
    requires Placed(v, place, next) && v.ctl != [] && co !in v.completions
    requires HandlerIn(v.ctl[|v.ctl| - 1]) == Some(hd.id)
    ensures Placed(v.(ctl := v.ctl[..|v.ctl| - 1], completions := v.completions[co := hd]),
                   place[hd.id := AtCo(co)], next)
  {
    var n := |v.ctl| - 1;
    var v1 := v.(ctl := v.ctl[..n], completions := v.completions[co := hd]);
    assert Holds(v, OnStack(n), hd.id);
    forall k | k != hd.id ensures Same(v, v1, k) {}
    forall p: Place ensures Holds(v1, p, hd.id) <==> p == AtCo(co) {
      assert Holds(v, p, hd.id) <==> p == OnStack(n);
    }
    Move(v, v1, place, next, hd.id, AtCo(co));
  }

  lemma StackToDeliver(v: Tables, hd: Handler, r: Result, place: map<HandlerId, Place>, next: HandlerId)
    requires Placed(v, place, next) && v.ctl != []
    requires HandlerIn(v.ctl[|v.ctl| - 1]) == Some(hd.id)
    ensures Placed(v.(ctl := v.ctl[..|v.ctl| - 1] + [Deliver(hd, r)]), place[hd.id := OnStack(|v.ctl| - 1)], next)
  {
    var n := |v.ctl| - 1;
    var v1 := v.(ctl := v.ctl[..n] + [Deliver(hd, r)]);
    assert Holds(v, OnStack(n), hd.id);
    forall k | k != hd.id ensures Same(v, v1, k) {}
    forall p: Place ensures Holds(v1, p, hd.id) <==> p == OnStack(n) {
      assert Holds(v, p, hd.id) <==> p == OnStack(n);
    }
    Move(v, v1, place, next, hd.id, OnStack(n));
  }

  lemma TableToDeliver(v: Tables, co: Co, r: Result, place: map<HandlerId, Place>, next: HandlerId)
    requires Placed(v, place, next) && co in v.completions
    ensures var hd := v.completions[co];
            Placed(v.(ctl := v.ctl + [Deliver(hd, r)], completions := v.completions - {co}),
                   place[hd.id := OnStack(|v.ctl|)], next)
  {
    var hd := v.completions[co];
    var v1 := v.(ctl := v.ctl + [Deliver(hd, r)], completions := v.completions - {co});
    assert Holds(v, AtCo(co), hd.id);
    forall k | k != hd.id ensures Same(v, v1, k) {}
    forall p: Place ensures Holds(v1, p, hd.id) <==> p == OnStack(|v.ctl|) {
      assert Holds(v, p, hd.id) <==> p == AtCo(co);
    }
    Move(v, v1, place, next, hd.id, OnStack(|v.ctl|));
  }

  lemma TableToCancelled(v: Tables, co: Co, place: map<HandlerId, Place>, next: HandlerId)
    requires Placed(v, place, next) && co in v.completions
    ensures var id := v.completions[co].id;
            Placed(v.(cancelled := v.cancelled + {id}, completions := v.completions - {co}),
                   place[id := Cancelled], next)
  {
    var id := v.completions[co].id;
    var v1 := v.(cancelled := v.cancelled + {id}, completions := v.completions - {co});
    assert Holds(v, AtCo(co), id);
    forall k | k != id ensures Same(v, v1, k) {}
    forall p: Place ensures Holds(v1, p, id) <==> p == Cancelled {
      assert Holds(v, p, id) <==> p == AtCo(co);
    }
    Move(v, v1, place, next, id, Cancelled);
  }

  lemma AtIndex<T>(order: seq<T>, i: nat)
    requires i < |order| && forall j, k | 0 <= j < k < |order| :: order[j] != order[k]
    ensures IndexOf(order, order[i]) == i
  {}

  lemma PassMoves(s: State, a: seq<Co>, b: seq<Co>)
    requires PlaceInv(s) && s.ctl == []
    requires Enumerates(a, s.pool.active.Keys) && Enumerates(b, s.completions.Keys)
    ensures PlaceInv(RunInterruptPass(s, a, b))
  {
    if s.shuttingDown { return; }
    var s1 := RunInterruptPass(s, a, b);
    var v, v1 := TablesOf(s), TablesOf(s1);
    forall p: Place, id: HandlerId ensures Holds(v1, p, id) <==> id in s1.hist.place && s1.hist.place[id] == p {
      assert Holds(v, p, id) <==> id in s.hist.place && s.hist.place[id] == p;
      if p.OnStack? && p.at < |b| {
        AtIndex(b, p.at);
        assert Holds(v, AtCo(b[p.at]), s.completions[b[p.at]].id);
        assert Holds(v, AtCo(b[p.at]), id) <==> id in s.hist.place && s.hist.place[id] == AtCo(b[p.at]);
      }
    }
  }

  lemma ShutdownMoves(s: State, b: seq<Co>)
    requires PlaceInv(s) && s.ctl == [] && Enumerates(b, s.completions.Keys)
    ensures PlaceInv(Shutdown(s, b))
  {
    if s.shuttingDown { return; }
    var s1 := Shutdown(s, b);
    var v, v1 := TablesOf(s), TablesOf(s1);
    var n := |s.hist.settled|;
    forall p: Place, id: HandlerId ensures Holds(v1, p, id) <==> id in s1.hist.place && s1.hist.place[id] == p {
      assert Holds(v, p, id) <==> id in s.hist.place && s.hist.place[id] == p;
      if p.Settled? && n <= p.at < n + |b| {
        AtIndex(b, p.at - n);
        assert Holds(v, AtCo(b[p.at - n]), s.completions[b[p.at - n]].id);
        assert Holds(v, AtCo(b[p.at - n]), id) <==> id in s.hist.place && s.hist.place[id] == AtCo(b[p.at - n]);
      }
    }
  }
}
