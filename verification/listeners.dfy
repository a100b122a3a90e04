/** The event-target registry both trackers are given (src/utils.js `addEventTargetInterface`):
    a list of listeners per event type, appended to, pruned of every occurrence of a
    listener, and walked in registration order on dispatch. Listeners are compared by
    identity, which here is equality of the listener values. */
module Listeners {
  import opened Touches

  /** The listener lists by event type. A type that was ever registered keeps its list, even
      once that list is empty. */
  type Registry<L> = map<string, seq<L>>

  /** An event as listeners receive it: its type and whatever data is attached to it. */
  datatype Event<D> = Event(kind: string, data: Option<D>)

  /** One listener call, with the event object it was handed. */
  datatype Invocation<L, D> = Invocation(listener: L, event: Event<D>)

  /** The listeners of type `t`; none when `t` was never registered. */
  function Listeners<L>(r: Registry<L>, t: string): seq<L> {
    if t in r then r[t] else []
  }

  // ADDING

  /** `addEventListener`: appends the listener to its type's list, creating the list when the
      type is new. A listener already present is added again. */
  function Add<L>(r: Registry<L>, t: string, cb: L): (r': Registry<L>)
    ensures t in r' && r'[t] == Listeners(r, t) + [cb]
    ensures r'.Keys == r.Keys + {t}
    ensures forall u :: u in r && u != t ==> r'[u] == r[u]
  {
    r[t := Listeners(r, t) + [cb]]
  }

  // REMOVING

  /** The reference meaning of removal: `s` with every occurrence of `cb` dropped and the
      other listeners kept in their order. */
  function Without<L(==)>(s: seq<L>, cb: L): (w: seq<L>)
    ensures cb !in w
    ensures |w| <= |s|
  {
    if s == [] then [] else (if s[0] == cb then [] else [s[0]]) + Without(s[1..], cb)
  }

  /** Removal keeps every other listener as often as it was registered. */
  lemma {:induction false} WithoutCounts<L>(s: seq<L>, cb: L)
    ensures multiset(Without(s, cb)) == multiset(s)[cb := 0]
    ensures |Without(s, cb)| == |s| - multiset(s)[cb]
    decreases |s|
  {
    if s != [] {
      WithoutCounts(s[1..], cb);
      assert s == [s[0]] + s[1..];
    }
  }

  /** The position of the first occurrence of `cb` in `s`, or `|s|` when there is none. */
  function IndexOf<L(==)>(s: seq<L>, cb: L): (i: nat)
    ensures i <= |s|
    ensures i < |s| ==> s[i] == cb
    ensures forall j :: 0 <= j < i ==> s[j] != cb
  {
    if s == [] then 0
    else if s[0] == cb then 0
    else 1 + IndexOf(s[1..], cb)
  }

  /** The removal loop of `removeEventListener`: splice out the first occurrence, then start
      over on the shortened list, until no occurrence is left. */
  function RemoveAll<L(==)>(s: seq<L>, cb: L): (w: seq<L>)
    ensures cb !in w
    ensures |w| <= |s|
    decreases |s|
  {
    var i := IndexOf(s, cb);
    if i == |s| then s else RemoveAll(s[..i] + s[i + 1..], cb)
  }

  /** `removeEventListener`: nothing happens for a type that was never registered; otherwise
      every occurrence of the listener leaves that type's list, which stays registered. */
  function Remove<L(==)>(r: Registry<L>, t: string, cb: L): (r': Registry<L>)
    ensures t !in r ==> r' == r
    ensures r'.Keys == r.Keys
    ensures t in r ==> cb !in r'[t]
    ensures forall u :: u in r && u != t ==> r'[u] == r[u]
  {
    if t !in r then r else r[t := RemoveAll(r[t], cb)]
  }

  lemma {:induction false} WithoutAppend<L>(a: seq<L>, b: seq<L>, cb: L)
    ensures Without(a + b, cb) == Without(a, cb) + Without(b, cb)
    decreases |a|
  {
    if a == [] {
      assert a + b == b;
    } else {
      assert (a + b)[0] == a[0];
      assert (a + b)[1..] == a[1..] + b;
      WithoutAppend(a[1..], b, cb);
    }
  }

  lemma {:induction false} WithoutAbsent<L>(s: seq<L>, cb: L)
    requires cb !in s
    ensures Without(s, cb) == s
    decreases |s|
  {
    if s != [] {
      WithoutAbsent(s[1..], cb);
      assert s == [s[0]] + s[1..];
    }
  }

  /** Dropping from a list that starts with `x`. */
  lemma WithoutCons<L>(x: L, s: seq<L>, cb: L)
    ensures Without([x] + s, cb) == (if x == cb then [] else [x]) + Without(s, cb)
  {
    assert ([x] + s)[0] == x;
    assert ([x] + s)[1..] == s;
  }

  /** The recursive splicing removes exactly the occurrences of the listener and keeps the
      others in order. */
  lemma {:induction false} RemoveAllIsWithout<L>(s: seq<L>, cb: L)
    ensures RemoveAll(s, cb) == Without(s, cb)
    decreases |s|
  {
    var i := IndexOf(s, cb);
    if i == |s| {
      WithoutAbsent(s, cb);
    } else {
      var before, after := s[..i], s[i + 1..];
      assert s == before + ([cb] + after);
      calc {
        RemoveAll(s, cb);
        RemoveAll(before + after, cb);
        { RemoveAllIsWithout(before + after, cb); }
        Without(before + after, cb);
        { WithoutAppend(before, after, cb); }
        Without(before, cb) + Without(after, cb);
        { WithoutCons(cb, after, cb); }
        Without(before, cb) + Without([cb] + after, cb);
        { WithoutAppend(before, [cb] + after, cb); }
        Without(s, cb);
      }
    }
  }

  /** Removal in terms of its reference meaning. */
  lemma RemoveIsFilter<L>(r: Registry<L>, t: string, cb: L)
    requires t in r
    ensures Remove(r, t, cb)[t] == Without(r[t], cb)
    ensures multiset(Remove(r, t, cb)[t]) == multiset(r[t])[cb := 0]
  {
    RemoveAllIsWithout(r[t], cb);
    WithoutCounts(r[t], cb);
  }

  /** Removing a listener twice is the same as removing it once. */
  lemma RemoveIdempotent<L>(r: Registry<L>, t: string, cb: L)
    ensures Remove(Remove(r, t, cb), t, cb) == Remove(r, t, cb)
  {
    if t in r {
      var once := Remove(r, t, cb);
      WithoutAbsent(once[t], cb);
      RemoveAllIsWithout(once[t], cb);
      assert once[t := once[t]] == once;
    }
  }

  /** Adding a listener that was not registered and removing it again restores the lists;
      only the type's (possibly empty) list remains as a trace. */
  lemma AddThenRemove<L>(r: Registry<L>, t: string, cb: L)
    requires cb !in Listeners(r, t)
    ensures Remove(Add(r, t, cb), t, cb) == r[t := Listeners(r, t)]
    ensures t in r ==> Remove(Add(r, t, cb), t, cb) == r
  {
    var s := Listeners(r, t);
    calc {
      RemoveAll(s + [cb], cb);
      { RemoveAllIsWithout(s + [cb], cb); }
      Without(s + [cb], cb);
      { WithoutAppend(s, [cb], cb); }
      Without(s, cb) + Without([cb], cb);
      { WithoutCons(cb, [], cb); assert [cb] + [] == [cb]; }
      Without(s, cb);
      { WithoutAbsent(s, cb); }
      s;
    }
    if t in r {
      assert r[t := r[t]] == r;
    }
  }

  // DISPATCHING

  /** The event listeners receive: with data attached when some was given. A falsy data
      argument of the source (absent, null, 0, the empty string, false) is `None` here. */
  function Delivered<D>(ev: Event<D>, data: Option<D>): (e: Event<D>)
    ensures e.kind == ev.kind
    ensures data.Some? ==> e.data == data
    ensures data.None? ==> e == ev
  {
    if data.Some? then ev.(data := data) else ev
  }

  /** The reference meaning of a dispatch: one call per listener of the event's type, in
      registration order, each handed the delivered event; no call for an unregistered type. */
  function Deliveries<L, D>(r: Registry<L>, ev: Event<D>, data: Option<D>): (calls: seq<Invocation<L, D>>)
    ensures |calls| == |Listeners(r, ev.kind)|
    ensures forall i :: 0 <= i < |calls| ==>
              calls[i] == Invocation(Listeners(r, ev.kind)[i], Delivered(ev, data))
  {
    var s := Listeners(r, ev.kind);
    seq(|s|, i requires 0 <= i < |s| => Invocation(s[i], Delivered(ev, data)))
  }

  /** `dispatchEvent`: for an unregistered type the event is left alone and nobody is
      called; otherwise the data is attached and the listeners are called one by one. */
  method Dispatch<L, D>(r: Registry<L>, ev: Event<D>, data: Option<D>) returns (delivered: Event<D>, calls: seq<Invocation<L, D>>)
    ensures ev.kind !in r ==> delivered == ev && calls == []
    ensures ev.kind in r ==> delivered == Delivered(ev, data)
    ensures |calls| == |Listeners(r, ev.kind)|
    ensures forall i :: 0 <= i < |calls| ==> calls[i].listener == Listeners(r, ev.kind)[i] && calls[i].event == delivered
    ensures calls == Deliveries(r, ev, data)
  {
    delivered := ev;
    calls := [];
    if ev.kind !in r {
      return;
    }
    if data.Some? {
      delivered := ev.(data := data);
    }
    var stack := r[ev.kind];
    var i := 0;
    while i < |stack|
      invariant 0 <= i <= |stack|
      invariant |calls| == i
      invariant forall j :: 0 <= j < i ==> calls[j] == Invocation(stack[j], delivered)
    {
      calls := calls + [Invocation(stack[i], delivered)];
      i := i + 1;
    }
  }

  /** A listener added to a type is called last on that type's next dispatch, after the ones
      registered before it. */
  lemma AddThenDispatch<L, D>(r: Registry<L>, cb: L, ev: Event<D>, data: Option<D>)
    ensures Deliveries(Add(r, ev.kind, cb), ev, data)
              == Deliveries(r, ev, data) + [Invocation(cb, Delivered(ev, data))]
  {
  }

  /** After removal a listener is no longer called for that type; the others are called as
      before, in their order. */
  lemma RemoveThenDispatch<L, D>(r: Registry<L>, cb: L, ev: Event<D>, data: Option<D>)
    ensures forall c :: c in Deliveries(Remove(r, ev.kind, cb), ev, data) ==> c.listener != cb
    ensures ev.kind in r ==>
              |Deliveries(Remove(r, ev.kind, cb), ev, data)| == |r[ev.kind]| - multiset(r[ev.kind])[cb]
  {
    if ev.kind in r {
      RemoveIsFilter(r, ev.kind, cb);
    }
  }
}
