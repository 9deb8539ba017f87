/**
  The in-process transport, and the consume loop over it with a limit on the messages.
*/
module InProcess {
  import opened Helpers
  import opened Settlement
  import opened BoundedDelivery

  type Headers = map<string, string>

  function Zip(bodies: seq<Item>, headers: seq<Headers>): seq<(Item, Headers)>
    requires |bodies| == |headers|
  {
    seq(|bodies|, i requires 0 <= i < |bodies| => (bodies[i], headers[i]))
  }

  lemma ZipAppend(bodies: seq<Item>, headers: seq<Headers>, item: Item, h: Headers)
    requires |bodies| == |headers|
    ensures Zip(bodies + [item], headers + [h]) == Zip(bodies, headers) + [(item, h)]
  {
  }

  lemma ZipHead(bodies: seq<Item>, headers: seq<Headers>)
    requires |bodies| == |headers| > 0
    ensures Zip(bodies, headers) == [(bodies[0], headers[0])] + Zip(bodies[1..], headers[1..])
  {
  }

  function Graves(dead: seq<(int, Payload)>): seq<Item> {
    seq(|dead|, i requires 0 <= i < |dead| => Item(dead[i].0, BodyOf(dead[i].1)))
  }

  // Every other queue is as it was, but for the dead letters appended to the target.
  ghost predicate Grew(before: map<string, seq<Item>>, after: map<string, seq<Item>>, q: string, target: string,
                       dead: seq<(int, Payload)>)
  {
    forall x :: x != q ==> ListOf(after, x) == ListOf(before, x) + if x == target then Graves(dead) else []
  }

  lemma SameGrew(before: map<string, seq<Item>>, after: map<string, seq<Item>>, q: string, target: string)
    requires forall x :: x != q ==> ListOf(after, x) == ListOf(before, x)
    ensures Grew(before, after, q, target, [])
  {
  }

  lemma GrewMore(a: map<string, seq<Item>>, b: map<string, seq<Item>>, c: map<string, seq<Item>>, q: string,
                 target: string,
                 dead: seq<(int, Payload)>, more: seq<(int, Payload)>)
    requires Grew(a, b, q, target, dead) && Grew(b, c, q, target, more)
    ensures Grew(a, c, q, target, dead + more)
  {
    assert Graves(dead + more) == Graves(dead) + Graves(more);
  }

  /** Bodies and their headers in parallel deques, one pair per queue. */
  class InMemoryTransport {
    var bodies: map<string, seq<Item>>
    var headers: map<string, seq<Headers>>

    ghost predicate Valid()
      reads this
    {
      bodies.Keys == headers.Keys && forall q :: q in bodies ==> |bodies[q]| == |headers[q]|
    }

    function Bodies(q: string): seq<Item>
      reads this
    {
      ListOf(bodies, q)
    }

    // Each body with its own headers.
    ghost function Contents(q: string): seq<(Item, Headers)>
      requires Valid()
      reads this
    {
      if q in bodies then Zip(bodies[q], headers[q]) else []
    }

    constructor ()
      ensures Valid() && forall q :: Bodies(q) == []
    {
      bodies, headers := map[], map[];
    }

    method PublishWithHeaders(q: string, item: Item, h: Headers)
      requires Valid()
      modifies this
      ensures Valid() && Contents(q) == old(Contents(q)) + [(item, h)] && Bodies(q) == old(Bodies(q)) + [item]
      ensures forall r :: r != q ==> Contents(r) == old(Contents(r))
      ensures forall r :: r != q ==> ListOf(bodies, r) == ListOf(old(bodies), r)
    {
      var hs := if q in headers then headers[q] else [];
      ZipAppend(Bodies(q), hs, item, h);
      bodies, headers := bodies[q := Bodies(q) + [item]], headers[q := hs + [h]];
    }

    method Publish(q: string, item: Item)
      requires Valid()
      modifies this
      ensures Valid() && Contents(q) == old(Contents(q)) + [(item, map[])] && Bodies(q) == old(Bodies(q)) + [item]
      ensures forall r :: r != q ==> Contents(r) == old(Contents(r))
      ensures forall r :: r != q ==> ListOf(bodies, r) == ListOf(old(bodies), r)
    {
      PublishWithHeaders(q, item, map[]);
    }

    method Pop(q: string) returns (popped: Option<(Item, Headers)>)
      requires Valid()
      modifies this
      ensures Valid()
      ensures popped.None? <==> old(Bodies(q)) == []
      ensures popped.None? ==> Bodies(q) == []
      ensures popped.Some? ==> old(Contents(q)) == [popped.value] + Contents(q)
      ensures popped.Some? ==> old(Bodies(q)) == [popped.value.0] + Bodies(q)
      ensures forall r :: r != q ==> Contents(r) == old(Contents(r))
      ensures forall r :: r != q ==> ListOf(bodies, r) == ListOf(old(bodies), r)
    {
      if q !in bodies || bodies[q] == [] { return None; }
      ZipHead(bodies[q], headers[q]);
      popped := Some((bodies[q][0], headers[q][0]));
      bodies, headers := bodies[q := bodies[q][1..]], headers[q := headers[q][1..]];
    }

    // The writes of one dispatch.
    method Settle(f: Dispatcher, q: string, target: string, item: Item, h: HandlerResult)
      returns (turn: Turn)
      requires Valid() && WritesTo(f, q, target)
      modifies this
      ensures Valid() && turn == f(item, h)
      ensures Bodies(q) == old(Bodies(q)) + turn.back
      ensures Grew(old(bodies), bodies, q, target, turn.dead)
    {
      turn := f(item, h);
      assert WellWritten(turn, item, q, target);
      if turn.back != [] {
        SendBack(q, turn.back[0]);
        assert turn.back == [turn.back[0]] && turn.dead == [];
        SameGrew(old(bodies), bodies, q, target);
      } else if turn.dead != [] {
        Publish(target, Item(item.tag, BodyOf(turn.dead[0].1)));
        assert Graves(turn.dead) == [Item(item.tag, BodyOf(turn.dead[0].1))];
      } else {
        SameGrew(old(bodies), bodies, q, target);
      }
    }

    method SendBack(q: string, item: Item)
      requires Valid()
      modifies this
      ensures Valid() && Bodies(q) == old(Bodies(q)) + [item]
      ensures forall r :: r != q ==> ListOf(bodies, r) == ListOf(old(bodies), r)
    {
      Publish(q, item);
    }

    // One turn of the loop: pop and dispatch, or nothing when the queue is empty.
    method TakeTurn(f: Dispatcher, q: string, target: string, h: HandlerResult)
      returns (taken: Option<Turn>)
      requires Valid() && WritesTo(f, q, target)
      modifies this
      ensures Valid() && (taken.Some? <==> old(Bodies(q)) != [])
      ensures taken.None? ==> Bodies(q) == [] && Grew(old(bodies), bodies, q, target, [])
      ensures taken.Some? ==> taken.value == f(old(Bodies(q))[0], h)
      ensures taken.Some? ==> Bodies(q) == old(Bodies(q))[1..] + taken.value.back
      ensures taken.Some? ==> Grew(old(bodies), bodies, q, target, taken.value.dead)
    {
      ghost var before := Bodies(q);
      ghost var was := bodies;
      var popped := Pop(q);
      ghost var mid := bodies;
      SameGrew(was, mid, q, target);
      if popped.None? { return None; }
      assert before[1..] == Bodies(q);
      var turn := Settle(f, q, target, popped.value.0, h);
      GrewMore(was, mid, bodies, q, target, [], turn.dead);
      assert [] + turn.dead == turn.dead;
      taken := Some(turn);
    }

    /** `consume` with `max_messages`: the loop ends when that many are processed or the queue is
        empty, and a message whose dispatch raises ends it as well. */
    method Consume(f: Dispatcher, q: string, target: string, maxMessages: nat, outcomes: nat -> HandlerResult)
      returns (processed: nat, raised: bool, ghost r: Run)
      requires Valid() && WritesTo(f, q, target)
      modifies this
      ensures Valid()
      ensures r == Iterate(f, StartOf(old(Bodies(q))), outcomes, maxMessages)
      ensures r.queue == Bodies(q) && r.escaped == raised && r.deliveries == processed + (if raised then 1 else 0)
      ensures Grew(old(bodies), bodies, q, target, r.dead)
    {
      processed, raised, r := 0, false, StartOf(Bodies(q));
      SameGrew(old(bodies), bodies, q, target);
      while processed < maxMessages
        invariant Valid() && !raised && processed <= maxMessages
        invariant r.queue == Bodies(q) && r.deliveries == processed && !r.escaped
        invariant Iterate(f, r, outcomes, maxMessages - processed)
               == Iterate(f, StartOf(old(Bodies(q))), outcomes, maxMessages)
        invariant Grew(old(bodies), bodies, q, target, r.dead)
      {
        ghost var before := bodies;
        var taken := TakeTurn(f, q, target, outcomes(processed));
        if taken.None? { break; }
        GrewMore(old(bodies), before, bodies, q, target, r.dead, taken.value.dead);
        r := Advance(f, r, outcomes(processed));
        if taken.value.raised {
          raised := true;
          return;
        }
        processed := processed + 1;
      }
    }

    /** `consume` of a runtime over this transport. */
    method ConsumeQueue(cfg: Config, q: string, maxMessages: nat, outcomes: nat -> HandlerResult)
      returns (processed: nat, raised: bool, ghost r: Run)
      requires Valid()
      modifies this
      ensures Valid()
      ensures r == RunOf(cfg, q, StartOf(old(Bodies(q))), outcomes, maxMessages)
      ensures r.queue == Bodies(q) && r.escaped == raised && r.deliveries == processed + (if raised then 1 else 0)
      ensures Grew(old(bodies), bodies, q, Target(cfg, Memory(), q), r.dead)
    {
      DispatchWritesTo(cfg, q);
      processed, raised, r := Consume(Dispatching(cfg, q), q, Target(cfg, Memory(), q), maxMessages, outcomes);
    }
  }

  // A turn writes at most once: back to the queue, or to the target.
  ghost predicate WellWritten(turn: Turn, item: Item, q: string, target: string) {
    && |turn.back| + |turn.dead| <= 1
    && (turn.dead != [] ==> turn.dead[0].0 == item.tag && target != q)
  }

  ghost predicate WritesTo(f: Dispatcher, q: string, target: string) {
    forall item, h :: WellWritten(f(item, h), item, q, target)
  }

  lemma DispatchWritesTo(cfg: Config, q: string)
    ensures WritesTo(Dispatching(cfg, q), q, Target(cfg, Memory(), q))
  {
    var f := Dispatching(cfg, q);
    forall item, h ensures WellWritten(f(item, h), item, q, Target(cfg, Memory(), q)) {
      OneWrite(cfg, q, item, h);
    }
  }

  lemma OneWrite(cfg: Config, q: string, item: Item, h: HandlerResult)
    ensures WellWritten(TurnOf(cfg, q, item, h), item, q, Target(cfg, Memory(), q))
    ensures var w := WriteOf(OutcomeOf(cfg, q, item, h).trace);
      w.Some? ==> w.value.queue == q || w.value.queue == Target(cfg, Memory(), q)
  {
  }
}
