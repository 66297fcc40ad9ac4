/** The in-process listener registry every component owns: a dictionary
    from event name to the list of handlers registered for it. Handlers are
    compared by identity, modelled as values of an equality type `H`. */
module EventEmitters {

  /** No handler occurs twice in a list. */
  ghost predicate NoDuplicates<H>(s: seq<H>)
  {
    forall i, j :: 0 <= i < j < |s| ==> s[i] != s[j]
  }

  /** `list.filter(i => i !== h)`: the list without `h`, order kept. */
  function Without<H(==)>(s: seq<H>, h: H): (r: seq<H>)
    ensures forall i :: 0 <= i < |r| ==> r[i] in s && r[i] != h
    ensures forall i :: 0 <= i < |s| && s[i] != h ==> s[i] in r
    ensures |r| <= |s|
    ensures h in s ==> |r| < |s|
    ensures NoDuplicates(s) ==> NoDuplicates(r)
  {
    if s == [] then []
    else if s[0] == h then Without(s[1..], h)
    else [s[0]] + Without(s[1..], h)
  }

  /** Without on a duplicate-free list removes exactly one entry. */
  lemma {:induction false} WithoutLength<H>(s: seq<H>, h: H)
    requires NoDuplicates(s) && h in s
    ensures |Without(s, h)| == |s| - 1
  {
    if s[0] == h {
      assert h !in s[1..];
      WithoutAbsent(s[1..], h);
    } else {
      WithoutLength(s[1..], h);
    }
  }

  /** Without leaves a list that does not hold `h` unchanged. */
  lemma {:induction false} WithoutAbsent<H>(s: seq<H>, h: H)
    requires h !in s
    ensures Without(s, h) == s
  {
    if s != [] {
      WithoutAbsent(s[1..], h);
      assert s == [s[0]] + s[1..];
    }
  }

  /** The registry after `on(name, h)`: `h` is appended to the list for
      `name` unless it is already there, and every other name keeps its list. */
  function Registered<H(==)>(listeners: map<string, seq<H>>, name: string, h: H): (r: map<string, seq<H>>)
    ensures name in r && h in r[name]
    ensures r.Keys == listeners.Keys + {name}
    ensures forall n :: n in listeners && n != name ==> r[n] == listeners[n]
    ensures name in listeners && h in listeners[name] ==> r == listeners
    ensures !(name in listeners && h in listeners[name]) ==>
      r[name] == (if name in listeners then listeners[name] else []) + [h]
  {
    if name in listeners && h in listeners[name] then listeners
    else listeners[name := (if name in listeners then listeners[name] else []) + [h]]
  }

  class EventEmitter<H(==)> {
    var listeners: map<string, seq<H>>

    /** Every registered name has a non-empty, duplicate-free list. */
    ghost predicate Valid()
      reads this
    {
      forall name :: name in listeners ==> listeners[name] != [] && NoDuplicates(listeners[name])
    }

    constructor ()
      ensures Valid() && listeners == map[]
    {
      listeners := map[];
    }

    method Dispose()
      modifies this
      ensures Valid() && listeners == map[]
    {
      listeners := map[];
    }

    /** Registers `h` for `name` unless it is already registered there. */
    method On(name: string, h: H)
      requires Valid()
      modifies this
      ensures Valid()
      ensures name in listeners && h in listeners[name]
      ensures listeners == Registered(old(listeners), name, h)
    {
      var current := if name in listeners then listeners[name] else [];
      listeners := listeners[name := current];
      if h in current {
        return;
      }
      listeners := listeners[name := current + [h]];
    }

    /** Unregisters `h` for `name`; a name whose list becomes empty is
        removed. An unknown name or an unregistered handler changes
        nothing. */
    method Off(name: string, h: H)
      requires Valid()
      modifies this
      ensures Valid()
      ensures name !in old(listeners) || h !in old(listeners)[name] ==> listeners == old(listeners)
      ensures name in old(listeners) && h in old(listeners)[name] ==>
        listeners == if Without(old(listeners)[name], h) == [] then old(listeners) - {name}
                     else old(listeners)[name := Without(old(listeners)[name], h)]
      ensures name in listeners ==> h !in listeners[name]
    {
      if name !in listeners {
        return;
      }
      if h !in listeners[name] {
        return;
      }
      var remaining := Without(listeners[name], h);
      listeners := listeners[name := remaining];
      if remaining == [] {
        listeners := listeners - {name};
      }
    }

    /** The handlers that `emit(name, data)` calls, in the order it calls
        them: each registered handler exactly once, in registration order. */
    method Emit(name: string) returns (invoked: seq<H>)
      requires Valid()
      ensures invoked == if name in listeners then listeners[name] else []
      ensures NoDuplicates(invoked)
    {
      invoked := [];
      if name !in listeners {
        return;
      }
      var handlers := listeners[name];
      var i := 0;
      while i < |handlers|
        invariant 0 <= i <= |handlers|
        invariant invoked == handlers[..i]
      {
        invoked := invoked + [handlers[i]];
        i := i + 1;
      }
      assert handlers[..|handlers|] == handlers;
    }
  }
}
