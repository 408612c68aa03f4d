/**
 * The shared event source the update listener subscribes to (the web3
 * service, an event emitter). It keeps, per channel, the listeners
 * registered with `on` (persistent) and `once` (one-shot), in registration
 * order. The events it will emit are given up front as a finite queue,
 * which stands in for the event loop's scheduling.
 */
module Events {
  import opened Transactions

  /** The two channels the listener uses: 'error' and 'transaction.updated'. */
  datatype Channel = ErrorChannel | UpdatedChannel

  /** What the source emits: a transaction update with its hash, or a fatal error. */
  datatype Event = Updated(hash: string, update: Update) | Error(reason: string)

  /** The closures a listener call registers, told apart by the call that made them. */
  datatype Listener = Kill(call: nat) | HandleTransactionUpdate(call: nat)

  datatype Registration = Registration(listener: Listener, once: bool)

  /** A registry operation a client issued, in the order it issued them. */
  datatype Call = CallOn(onChannel: Channel, onListener: Listener)
                | CallOnce(onceChannel: Channel, onceListener: Listener)
                | CallOff(offChannel: Channel, offListener: Listener)

  function ChannelOf(e: Event): Channel
  {
    if e.Error? then ErrorChannel else UpdatedChannel
  }

  /** The registrations that survive an emission: the one-shot ones have fired. */
  function Persistent(s: seq<Registration>): (r: seq<Registration>)
    ensures |r| <= |s|
  {
    if s == [] then []
    else Persistent(s[..|s| - 1]) + (if s[|s| - 1].once then [] else [s[|s| - 1]])
  }

  /** An emission keeps exactly the persistent registrations. */
  lemma {:induction false} PersistentMembers(s: seq<Registration>, x: Registration)
    ensures x in Persistent(s) <==> x in s && !x.once
  {
    if s != [] {
      var init, last := s[..|s| - 1], s[|s| - 1];
      assert s == init + [last];
      PersistentMembers(init, x);
    }
  }

  /** An emission keeps every persistent registration as often as it was made, and no one-shot one. */
  lemma {:induction false} PersistentCount(s: seq<Registration>, x: Registration)
    ensures multiset(Persistent(s))[x] == if x.once then 0 else multiset(s)[x]
  {
    if s != [] {
      var init, last := s[..|s| - 1], s[|s| - 1];
      assert s == init + [last];
      PersistentCount(init, x);
    }
  }

  lemma PersistentAppend(s: seq<Registration>, x: Registration)
    ensures Persistent(s + [x]) == Persistent(s) + (if x.once then [] else [x])
  {
    assert (s + [x])[..|s|] == s;
  }

  /** A second emission on a channel drops nothing more than the first did. */
  lemma {:induction false} PersistentIdempotent(s: seq<Registration>)
    ensures Persistent(Persistent(s)) == Persistent(s)
  {
    if s != [] {
      var init, last := s[..|s| - 1], s[|s| - 1];
      assert s == init + [last];
      PersistentIdempotent(init);
      PersistentAppend(init, last);
      if last.once {
        assert Persistent(s) == Persistent(init);
      } else {
        PersistentAppend(Persistent(init), last);
        calc {
          Persistent(Persistent(s));
          Persistent(Persistent(init) + [last]);
          Persistent(Persistent(init)) + [last];
          Persistent(s);
        }
      }
    }
  }

  /** `off`: the most recently added registration of the listener goes away. */
  function RemoveLast(s: seq<Registration>, l: Listener): (r: seq<Registration>)
    ensures (forall i :: 0 <= i < |s| ==> s[i].listener != l) ==> r == s
    ensures (exists i :: 0 <= i < |s| && s[i].listener == l) ==> |r| == |s| - 1
    ensures multiset(r) <= multiset(s)
  {
    if s == [] then []
    else
      assert s == s[..|s| - 1] + [s[|s| - 1]];
      if s[|s| - 1].listener == l then s[..|s| - 1]
      else RemoveLast(s[..|s| - 1], l) + [s[|s| - 1]]
  }

  /**
   * `off` removes the listener's most recent registration and nothing else:
   * the registrations before and after it stay, in their order.
   */
  lemma {:induction false} RemoveLastRemovesLatest(s: seq<Registration>, l: Listener, i: nat)
    requires i < |s| && s[i].listener == l
    requires forall j :: i < j < |s| ==> s[j].listener != l
    ensures RemoveLast(s, l) == s[..i] + s[i + 1..]
  {
    var init, last := s[..|s| - 1], s[|s| - 1];
    assert s == init + [last];
    if i < |s| - 1 {
      RemoveLastRemovesLatest(init, l, i);
      assert s[..i] == init[..i];
      assert s[i + 1..] == init[i + 1..] + [last];
    }
  }

  /** Removing a listener just registered restores the registry exactly. */
  lemma RemoveLastOfAppended(s: seq<Registration>, x: Registration)
    ensures RemoveLast(s + [x], x.listener) == s
  {
    assert (s + [x])[..|s|] == s;
  }

  class EventSource {
    var errorListeners: seq<Registration>
    var updateListeners: seq<Registration>
    /** The events still to be emitted, in order. */
    var pending: seq<Event>
    /** Every registry operation clients have issued. */
    ghost var calls: seq<Call>

    function Listeners(ch: Channel): seq<Registration>
      reads this
    {
      if ch == ErrorChannel then errorListeners else updateListeners
    }

    constructor (events: seq<Event>)
      ensures errorListeners == [] && updateListeners == []
      ensures pending == events && calls == []
    {
      errorListeners, updateListeners := [], [];
      pending := events;
      calls := [];
    }

    /** `on(channel, listener)`: a persistent registration. */
    method On(ch: Channel, l: Listener)
      modifies this
      ensures Listeners(ch) == old(Listeners(ch)) + [Registration(l, false)]
      ensures ch == ErrorChannel ==> updateListeners == old(updateListeners)
      ensures ch == UpdatedChannel ==> errorListeners == old(errorListeners)
      ensures pending == old(pending) && calls == old(calls) + [CallOn(ch, l)]
    {
      if ch == ErrorChannel {
        errorListeners := errorListeners + [Registration(l, false)];
      } else {
        updateListeners := updateListeners + [Registration(l, false)];
      }
      calls := calls + [CallOn(ch, l)];
    }

    /** `once(channel, listener)`: a registration that fires at most once. */
    method Once(ch: Channel, l: Listener)
      modifies this
      ensures Listeners(ch) == old(Listeners(ch)) + [Registration(l, true)]
      ensures ch == ErrorChannel ==> updateListeners == old(updateListeners)
      ensures ch == UpdatedChannel ==> errorListeners == old(errorListeners)
      ensures pending == old(pending) && calls == old(calls) + [CallOnce(ch, l)]
    {
      if ch == ErrorChannel {
        errorListeners := errorListeners + [Registration(l, true)];
      } else {
        updateListeners := updateListeners + [Registration(l, true)];
      }
      calls := calls + [CallOnce(ch, l)];
    }

    /** `off(channel, listener)`: withdraws the listener's latest registration. */
    method Off(ch: Channel, l: Listener)
      modifies this
      ensures Listeners(ch) == RemoveLast(old(Listeners(ch)), l)
      ensures ch == ErrorChannel ==> updateListeners == old(updateListeners)
      ensures ch == UpdatedChannel ==> errorListeners == old(errorListeners)
      ensures pending == old(pending) && calls == old(calls) + [CallOff(ch, l)]
    {
      if ch == ErrorChannel {
        errorListeners := RemoveLast(errorListeners, l);
      } else {
        updateListeners := RemoveLast(updateListeners, l);
      }
      calls := calls + [CallOff(ch, l)];
    }

    /**
     * Emits the next event: every listener of its channel is invoked, and the
     * one-shot registrations among them are consumed. The caller plays the
     * part of the invoked listener it owns.
     */
    method Emit() returns (e: Event)
      requires pending != []
      modifies this
      ensures e == old(pending[0]) && pending == old(pending[1..])
      ensures Listeners(ChannelOf(e)) == Persistent(old(Listeners(ChannelOf(e))))
      ensures e.Error? ==> updateListeners == old(updateListeners)
      ensures e.Updated? ==> errorListeners == old(errorListeners)
      ensures calls == old(calls)
    {
      e := pending[0];
      pending := pending[1..];
      if e.Error? {
        errorListeners := Persistent(errorListeners);
      } else {
        updateListeners := Persistent(updateListeners);
      }
    }
  }
}
