/**
 * The subject of the observer pattern: a list of observers, changed in
 * place by register and remove, and the latest price, passed to every
 * observer in list order on notify.  What an observer does with the price is
 * outside this model; a notification is recorded as the observer and the
 * price it receives.
 */
module PriceSubject {
  import opened Models

  /** The first position of `o` in `s`. */
  function FirstIndex<O(==)>(s: seq<O>, o: O): (r: nat)
    requires o in s
    ensures r < |s| && s[r] == o
    ensures forall j :: 0 <= j < r ==> s[j] != o
  {
    if s[0] == o then 0 else 1 + FirstIndex(s[1..], o)
  }

  /** `List.remove(Object)`: the list without the first occurrence of `o`, or unchanged if there is none. */
  function RemoveFirst<O(==)>(s: seq<O>, o: O): seq<O>
  {
    if o in s then s[..FirstIndex(s, o)] + s[FirstIndex(s, o) + 1..] else s
  }

  /**
   * Removing takes away exactly one occurrence of a registered observer, the
   * first, and leaves other lists unchanged.
   */
  lemma RemoveFirstRule<O>(s: seq<O>, o: O)
    ensures o in s ==> |RemoveFirst(s, o)| == |s| - 1
    ensures o in s ==> multiset(RemoveFirst(s, o)) == multiset(s) - multiset{o}
    ensures o !in s ==> RemoveFirst(s, o) == s
  {
    if o in s {
      var i := FirstIndex(s, o);
      assert s == s[..i] + [s[i]] + s[i + 1..];
    }
  }

  /** Removing an observer just registered, that was not there before, gives back the old list. */
  lemma RegisterThenRemove<O>(s: seq<O>, o: O)
    requires o !in s
    ensures RemoveFirst(s + [o], o) == s
  {
    var i := FirstIndex(s + [o], o);
    assert i == |s|;
    assert (s + [o])[..i] == s;
  }

  /** The calls `notifyObservers` makes: each observer in list order, each with the current price. */
  function Notifications<O>(observers: seq<O>, price: Option<Candle>): (r: seq<(O, Option<Candle>)>)
    ensures |r| == |observers|
  {
    if observers == [] then []
    else [(observers[0], price)] + Notifications(observers[1..], price)
  }

  /** How often `o` receives a notification. */
  function TimesNotified<O(==)>(calls: seq<(O, Option<Candle>)>, o: O): nat
  {
    if calls == [] then 0
    else (if calls[0].0 == o then 1 else 0) + TimesNotified(calls[1..], o)
  }

  /** Every registration is notified once: an observer registered twice hears the price twice. */
  lemma {:induction false} NotifiedPerRegistration<O>(observers: seq<O>, price: Option<Candle>, o: O)
    ensures TimesNotified(Notifications(observers, price), o) == multiset(observers)[o]
  {
    if observers != [] {
      NotifiedPerRegistration(observers[1..], price, o);
      assert observers == [observers[0]] + observers[1..];
    }
  }

  class PriceSubject<O(==)> {
    var observers: seq<O>
    var price: Option<Candle>

    constructor()
      ensures observers == [] && price == None
    {
      observers := [];
      price := None;
    }

    /** `register`: appends at the end. */
    method Register(o: O)
      modifies this
      ensures observers == old(observers) + [o]
      ensures price == old(price)
    {
      observers := observers + [o];
    }

    /** `remove`: searches for the first occurrence and deletes it; reports whether there was one. */
    method Remove(o: O) returns (removed: bool)
      modifies this
      ensures removed <==> o in old(observers)
      ensures observers == RemoveFirst(old(observers), o)
      ensures price == old(price)
    {
      var i := 0;
      while i < |observers| && observers[i] != o
        invariant 0 <= i <= |observers|
        invariant forall j :: 0 <= j < i ==> observers[j] != o
      {
        i := i + 1;
      }
      if i == |observers| {
        removed := false;
      } else {
        assert o in observers;
        assert i == FirstIndex(observers, o);
        observers := observers[..i] + observers[i + 1..];
        removed := true;
      }
    }

    /** `notifyObservers`: one call per list entry, in order; the list itself is not changed. */
    method NotifyObservers() returns (calls: seq<(O, Option<Candle>)>)
      ensures calls == Notifications(observers, price)
    {
      calls := [];
      var i := 0;
      while i < |observers|
        invariant 0 <= i <= |observers|
        invariant calls + Notifications(observers[i..], price) == Notifications(observers, price)
      {
        assert observers[i..] == [observers[i]] + observers[i + 1..];
        calls := calls + [(observers[i], price)];
        i := i + 1;
      }
    }

    /** `setPrice`: replaces the price only. */
    method SetPrice(p: Candle)
      modifies this
      ensures price == Some(p)
      ensures observers == old(observers)
    {
      price := Some(p);
    }
  }
}
