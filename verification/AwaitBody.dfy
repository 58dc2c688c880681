/**
 `await(fn)`: a handle that `resolve`, `reject` and the end of the body compete to complete.

 Lua runs the body inside `lua_pcallk`. A body that never yielded makes that call return, a
 body that did makes Lua enter the continuation instead, with `LUA_YIELD` where the call would
 have returned `LUA_OK`. The two functions can be called by anyone, at any time, any number of
 times, also after the body is gone.
 */
module AwaitBody {
  import opened ByteStrings
  import opened Wrappers

  // What a script passes or raises: something Lua can turn into a string, or not.
  datatype Arg = Nil | Text(s: Bytes) | Object(typeName: Bytes)

  datatype Status = LUA_OK | LUA_YIELD | LUA_ERRRUN

  // `crossed`: the body has yielded across the protected call.
  datatype Body = Running(crossed: bool) | Parked | Ended

  // `resumes`: the completions pushed for the handle, oldest first.
  datatype Await = Await(done: bool, body: Body, resumes: seq<seq<Arg>>)

  const STARTED := Await(false, Running(false), [])

  function Rejection(arg: Option<Arg>): seq<Arg> {
    [Nil, if arg.Some? && arg.value.Text? then arg.value else Text("rejected")]
  }

  // The text the trampoline rejects with.
  function ErrorText(error: Arg): Bytes {
    match error
    case Text(s) => s
    case Nil => "error object (nil)"
    case Object(typeName) => "error object (" + typeName + ")"
  }

  function Settle(a: Await, values: seq<Arg>): Await {
    if a.done then a else a.(done := true, resumes := a.resumes + [values])
  }

  function Finish(a: Await, status: Status, error: Arg): Await {
    if status != LUA_OK && status != LUA_YIELD then Settle(a, Rejection(Some(Text(ErrorText(error))))) else a
  }

  // --- the closures of the source ---

  class AwaitContext {
    var done: bool
    var body: Body
    var resumes: seq<seq<Arg>>

    constructor ()
      ensures View() == STARTED
    {
      done, body, resumes := false, Running(false), [];
    }

    function View(): Await
      reads this
    {
      Await(done, body, resumes)
    }

    method Resolve(values: seq<Arg>)
      modifies this
      ensures View() == Settle(old(View()), values)
    {
      if done { return; }
      done := true;
      resumes := resumes + [values];
    }

    method Reject(arg: Option<Arg>)
      modifies this
      ensures View() == Settle(old(View()), Rejection(arg))
    {
      if done { return; }
      done := true;
      var args := [Nil];
      if arg.Some? && arg.value.Text? {
        args := args + [arg.value];
      } else {
        args := args + [Text("rejected")];
      }
      assert args == Rejection(arg);
      resumes := resumes + [args];
    }

    method FinishAwaitBody(status: Status, error: Arg)
      modifies this
      ensures View() == Finish(old(View()), status, error)
    {
      if status != LUA_OK && status != LUA_YIELD {
        var text := ErrorText(error);
        Reject(Some(Text(text)));
      }
    }

    // The body stops for good: `lua_pcallk` returns, or Lua enters its continuation.
    method BodyEnds(raised: Option<Arg>)
      requires body.Running?
      modifies this
      ensures View() == Apply(old(View()), if raised.Some? then Raises(raised.value) else Returns)
    {
      var crossed := body.crossed;
      body := Ended;
      var error := if raised.Some? then raised.value else Nil;
      if raised.Some? {
        FinishAwaitBody(LUA_ERRRUN, error);
      } else if crossed {
        FinishAwaitBody(LUA_YIELD, error);
      } else {
        FinishAwaitBody(LUA_OK, error);
      }
    }
  }

  // --- runs ---

  datatype Event =
    | Resolves(values: seq<Arg>)
    | Rejects(arg: Option<Arg>)
    | Yields
    | Resumes
    | Returns
    | Raises(error: Arg)

  predicate Possible(a: Await, e: Event) {
    match e
    case Yields => a.body.Running?
    case Resumes => a.body.Parked?
    case Returns => a.body.Running?
    case Raises(_) => a.body.Running?
    case _ => true
  }

  function Apply(a: Await, e: Event): Await {
    match e
    case Resolves(values) => Settle(a, values)
    case Rejects(arg) => Settle(a, Rejection(arg))
    case Yields => a.(body := Parked)
    case Resumes => a.(body := Running(true))
    case Returns =>
      Finish(a.(body := Ended), if a.body.Running? && a.body.crossed then LUA_YIELD else LUA_OK, Nil)
    case Raises(error) => Finish(a.(body := Ended), LUA_ERRRUN, error)
  }

  predicate IsRun(a: Await, events: seq<Event>)
    decreases |events|
  {
    events == [] || (Possible(a, events[0]) && IsRun(Apply(a, events[0]), events[1..]))
  }

  function After(a: Await, events: seq<Event>): Await
    decreases |events|
  {
    if events == [] then a else After(Apply(a, events[0]), events[1..])
  }

  // What an event would complete the handle with, if it came first.
  function Offer(e: Event): Option<seq<Arg>> {
    match e
    case Resolves(values) => Some(values)
    case Rejects(arg) => Some(Rejection(arg))
    case Raises(error) => Some([Nil, Text(ErrorText(error))])
    case _ => None
  }

  function FirstOffer(events: seq<Event>): Option<seq<Arg>> {
    if events == [] then None
    else if Offer(events[0]).Some? then Offer(events[0])
    else FirstOffer(events[1..])
  }

  lemma {:induction false} LateOffersAreIgnored(a: Await, events: seq<Event>)
    requires a.done
    ensures After(a, events).done && After(a, events).resumes == a.resumes
    decreases |events|
  {
    if events != [] { LateOffersAreIgnored(Apply(a, events[0]), events[1..]); }
  }

  lemma {:induction false} FirstOfferWins(a: Await, events: seq<Event>)
    requires !a.done && a.resumes == []
    ensures var offer := FirstOffer(events); var b := After(a, events);
            && b.done == offer.Some? && b.resumes == if offer.Some? then [offer.value] else []
    decreases |events|
  {
    if events != [] {
      var b := Apply(a, events[0]);
      if b.done {
        LateOffersAreIgnored(b, events[1..]);
      } else {
        FirstOfferWins(b, events[1..]);
      }
    }
  }

  /**
   In every interleaving the handle is completed at most once, and by whichever of resolve,
   reject and a raising body came first.
   */
  lemma SettlesOnce(events: seq<Event>)
    requires IsRun(STARTED, events)
    ensures var offer := FirstOffer(events);
            After(STARTED, events).resumes == if offer.Some? then [offer.value] else []
  {
    FirstOfferWins(STARTED, events);
  }

  // What each event would complete the handle with, said in full.
  predicate Offers(e: Event, values: seq<Arg>) {
    match e
    case Resolves(given) => values == given
    case Rejects(Some(Text(s))) => values == [Nil, Text(s)]
    case Rejects(_) => values == [Nil, Text("rejected")]
    case Raises(Text(s)) => values == [Nil, Text(s)]
    case Raises(Nil) => values == [Nil, Text("error object (nil)")]
    case Raises(Object(typeName)) => values == [Nil, Text("error object (" + typeName + ")")]
    case _ => false
  }

  predicate OffersNothing(e: Event) {
    e.Yields? || e.Resumes? || e.Returns?
  }

  // The first event that is a resolve, a reject or a raise has these values.
  predicate OfferedFirst(events: seq<Event>, values: seq<Arg>) {
    exists i | 0 <= i < |events| :: Offers(events[i], values) && forall k | 0 <= k < i :: OffersNothing(events[k])
  }

  lemma {:induction false} FirstOfferIs(events: seq<Event>, values: seq<Arg>)
    ensures FirstOffer(events) == Some(values) <==> OfferedFirst(events, values)
    decreases |events|
  {
    if events != [] {
      var rest := events[1..];
      FirstOfferIs(rest, values);
      assert OffersNothing(events[0]) <==> Offer(events[0]).None?;
      assert Offers(events[0], values) <==> Offer(events[0]) == Some(values);
      hide Offers, Offer;
      if OfferedFirst(events, values) && OffersNothing(events[0]) {
        var i :| 0 <= i < |events| && Offers(events[i], values) && forall k | 0 <= k < i :: OffersNothing(events[k]);
        assert i > 0 && rest[i - 1] == events[i];
        assert forall k | 0 <= k < i - 1 :: rest[k] == events[k + 1];
      }
      if OfferedFirst(rest, values) && OffersNothing(events[0]) {
        var i :| 0 <= i < |rest| && Offers(rest[i], values) && forall k | 0 <= k < i :: OffersNothing(rest[k]);
        assert events[i + 1] == rest[i];
        assert forall k | 1 <= k < i + 1 :: events[k] == rest[k - 1];
      }
    }
  }

  /** The handle is completed with these values, and no others, if and only if they were offered first. */
  lemma CompletedExactly(events: seq<Event>, values: seq<Arg>)
    requires IsRun(STARTED, events)
    ensures After(STARTED, events).resumes == [values] <==> OfferedFirst(events, values)
    ensures |After(STARTED, events).resumes| <= 1
  {
    SettlesOnce(events);
    FirstOfferIs(events, values);
    hide OfferedFirst;
  }

  /**
   A body that raises with the handle unsettled rejects it, once, with the error's text; one that
   raises later changes nothing.
   */
  lemma RaisingRejects(before: seq<Event>, error: Arg, after: seq<Event>)
    requires IsRun(STARTED, before + [Raises(error)] + after)
    ensures var settled := FirstOffer(before);
            After(STARTED, before + [Raises(error)] + after).resumes ==
              if settled.Some? then [settled.value] else [[Nil, Text(ErrorText(error))]]
  {
    var events := before + [Raises(error)] + after;
    SettlesOnce(events);
    assert events == before + ([Raises(error)] + after);
    OfferOfConcat(before, [Raises(error)] + after);
  }

  lemma {:induction false} OfferOfConcat(xs: seq<Event>, ys: seq<Event>)
    ensures FirstOffer(xs + ys) == if FirstOffer(xs).Some? then FirstOffer(xs) else FirstOffer(ys)
    decreases |xs|
  {
    if xs == [] {
      assert xs + ys == ys;
    } else {
      assert (xs + ys)[1..] == xs[1..] + ys;
      OfferOfConcat(xs[1..], ys);
    }
  }

  /** A body that returns completes nothing, also through a continuation entered with `LUA_YIELD`. */
  lemma {:induction false} ReturningNeverRejects(before: seq<Event>, after: seq<Event>)
    requires IsRun(STARTED, before + [Returns] + after)
    ensures After(STARTED, before + [Returns] + after).resumes == After(STARTED, before + after).resumes
  {
    assert before + [Returns] + after == before + ([Returns] + after);
    OfferOfConcat(before, [Returns] + after);
    OfferOfConcat(before, after);
    assert ([Returns] + after)[1..] == after;
    FirstOfferWins(STARTED, before + [Returns] + after);
    FirstOfferWins(STARTED, before + after);
  }
}
