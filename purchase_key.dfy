/**
 * The paywall's transaction-update listener for a purchased key. It links
 * the known transactions to the key and looks at the key's authoritative
 * transaction (the first one). If that transaction is final it returns its
 * inputs untouched. Otherwise it waits on the shared event source for the
 * first update of that transaction's hash and merges it into a copy of the
 * transaction map. It then links the key again. An 'error' event before a
 * matching update rejects the call.
 */
module PurchaseKey {
  import opened Wrappers
  import opened Transactions
  import opened Events

  /** A purchased key: its linked transactions, authoritative one first, and opaque fields. */
  datatype Key = Key(transactions: seq<Transaction>, extra: map<string, Value>)

  /**
   * `linkTransactionsToKey(key, transactions, requiredConfirmations)`. It is
   * defined outside this core, so the listener receives it as a parameter.
   */
  type Linker = (Key, TransactionMap, nat) -> Key

  datatype Failure =
    | NoAuthoritativeTransaction   // the linked key has no transaction to read a status from
    | SourceError(reason: string)  // the event source emitted 'error' during the wait

  /** How a call ends: settled with a result, rejected, or still suspended when the events run out. */
  datatype Outcome = Settled(transactions: TransactionMap, key: Key) | Rejected(failure: Failure) | Waiting

  /** An event the handler passes over: an update of some other transaction. */
  predicate Ignored(watched: string, e: Event)
  {
    e.Updated? && e.hash != watched
  }

  /** What waiting on a stream of events yields, with the index of the event that settled it. */
  datatype WaitResult = Matched(update: Update, at: nat) | Failed(reason: string, at: nat) | Exhausted

  /** The events passed over before the wait settled (all of them if it never did). */
  function Mismatches(r: WaitResult, n: nat): nat
  {
    if r.Exhausted? then n else r.at
  }

  /** The events the wait took from the source. */
  function Consumed(r: WaitResult, n: nat): nat
  {
    if r.Exhausted? then n else r.at + 1
  }

  /**
   * The wait for one update: the first event that is not an update of
   * another hash settles it, as a match if it updates the watched hash and
   * as a failure if it is an error.
   */
  function Await(watched: string, events: seq<Event>): (r: WaitResult)
    ensures r.Matched? ==> r.at < |events| && events[r.at] == Updated(watched, r.update)
    ensures r.Failed? ==> r.at < |events| && events[r.at] == Error(r.reason)
    ensures Mismatches(r, |events|) <= |events|
    ensures forall i :: 0 <= i < Mismatches(r, |events|) ==> Ignored(watched, events[i])
  {
    if events == [] then Exhausted
    else match events[0]
      case Error(reason) => Failed(reason, 0)
      case Updated(hash, update) =>
        if hash == watched then Matched(update, 0)
        else match Await(watched, events[1..])
          case Matched(u, k) => Matched(u, k + 1)
          case Failed(reason, k) => Failed(reason, k + 1)
          case Exhausted => Exhausted
  }

  /** The first event that is not passed over decides the wait, whatever follows it. */
  lemma {:induction false} AwaitFirstRelevant(watched: string, events: seq<Event>, k: nat)
    requires k < |events| && !Ignored(watched, events[k])
    requires forall j :: 0 <= j < k ==> Ignored(watched, events[j])
    ensures Await(watched, events)
            == if events[k].Error? then Failed(events[k].reason, k) else Matched(events[k].update, k)
  {
    if k > 0 {
      assert Ignored(watched, events[0]);
      forall j | 0 <= j < k - 1
        ensures Ignored(watched, events[1..][j])
      {
        assert events[1..][j] == events[j + 1];
      }
      AwaitFirstRelevant(watched, events[1..], k - 1);
    }
  }

  /** A stream of updates to other hashes never settles the wait. */
  lemma {:induction false} AwaitAllIgnored(watched: string, events: seq<Event>)
    requires forall j :: 0 <= j < |events| ==> Ignored(watched, events[j])
    ensures Await(watched, events) == Exhausted
  {
    if events != [] {
      assert Ignored(watched, events[0]);
      forall j | 0 <= j < |events| - 1
        ensures Ignored(watched, events[1..][j])
      {
        assert events[1..][j] == events[j + 1];
      }
      AwaitAllIgnored(watched, events[1..]);
    }
  }

  /** Once settled, later events have no effect on the wait. */
  lemma {:induction false} AwaitIgnoresLater(watched: string, events: seq<Event>, later: seq<Event>)
    requires !Await(watched, events).Exhausted?
    ensures Await(watched, events + later) == Await(watched, events)
  {
    assert events != [];
    assert (events + later)[0] == events[0];
    if Ignored(watched, events[0]) {
      assert (events + later)[1..] == events[1..] + later;
      AwaitIgnoresLater(watched, events[1..], later);
    }
  }

  /** Updates for hashes A and B are passed over; the first of two updates for H settles the wait. */
  lemma SingleMatchExample(a: string, b: string, h: string, u1: Update, u2: Update, u3: Update, u4: Update)
    requires a != h && b != h
    ensures Await(h, [Updated(a, u1), Updated(b, u2), Updated(h, u3), Updated(h, u4)]) == Matched(u3, 2)
  {
    AwaitFirstRelevant(h, [Updated(a, u1), Updated(b, u2), Updated(h, u3), Updated(h, u4)], 2);
  }

  /** The transaction the call waits on, or None when it returns without waiting. */
  function Watched(existingTransactions: TransactionMap, existingKey: Key,
                   requiredConfirmations: nat, link: Linker): (r: Option<Transaction>)
    ensures var key := link(existingKey, existingTransactions, requiredConfirmations);
      && (r.Some? <==> |key.transactions| > 0
                       && key.transactions[0].status in InFlightStatuses
                       && !(key.transactions[0].status == "mined"
                            && key.transactions[0].confirmations > requiredConfirmations))
      && (r.Some? ==> r.value == key.transactions[0])
  {
    var key := link(existingKey, existingTransactions, requiredConfirmations);
    if |key.transactions| == 0 || IsFinal(key.transactions[0], requiredConfirmations) then None
    else Some(key.transactions[0])
  }

  /** What a call of the listener produces when the source emits `events`. */
  function Listen(existingTransactions: TransactionMap, existingKey: Key,
                  requiredConfirmations: nat, link: Linker, events: seq<Event>): (r: Outcome)
    ensures var watched := Watched(existingTransactions, existingKey, requiredConfirmations, link);
      && (|link(existingKey, existingTransactions, requiredConfirmations).transactions| == 0
          ==> r == Rejected(NoAuthoritativeTransaction))
      && (watched.None? && |link(existingKey, existingTransactions, requiredConfirmations).transactions| > 0
          ==> r == Settled(existingTransactions, existingKey))
      && (r.Settled? ==> existingTransactions.Keys <= r.transactions.Keys)
      && (r.Waiting? ==> watched.Some? && forall i :: 0 <= i < |events| ==> Ignored(watched.value.hash, events[i]))
      && (r.Rejected? && r.failure.SourceError? ==> Error(r.failure.reason) in events)
  {
    var key := link(existingKey, existingTransactions, requiredConfirmations);
    if |key.transactions| == 0 then Rejected(NoAuthoritativeTransaction)
    else
      var transaction := key.transactions[0];
      if IsFinal(transaction, requiredConfirmations) then Settled(existingTransactions, existingKey)
      else match Await(transaction.hash, events)
        case Matched(update, _) =>
          var transactions := Insert(existingTransactions, Merge(transaction, update));
          Settled(transactions, link(existingKey, transactions, requiredConfirmations))
        case Failed(reason, _) => Rejected(SourceError(reason))
        case Exhausted => Waiting
  }

  lemma SuffixStep<T>(s: seq<T>, i: nat)
    requires i < |s|
    ensures s[i..][0] == s[i] && s[i..][1..] == s[i + 1..]
  {
  }

  /**
   * A final authoritative transaction (status not submitted, pending or
   * mined, or mined with more confirmations than required) returns the
   * original transactions and key, not the re-linked key, whatever the
   * source emits, and the call does not wait.
   */
  lemma FinalReturnsInputs(existingTransactions: TransactionMap, existingKey: Key,
                           requiredConfirmations: nat, link: Linker, events: seq<Event>)
    requires var key := link(existingKey, existingTransactions, requiredConfirmations);
      && |key.transactions| > 0
      && (key.transactions[0].status !in InFlightStatuses
          || (key.transactions[0].status == "mined" && key.transactions[0].confirmations > requiredConfirmations))
    ensures Listen(existingTransactions, existingKey, requiredConfirmations, link, events)
            == Settled(existingTransactions, existingKey)
    ensures Watched(existingTransactions, existingKey, requiredConfirmations, link) == None
  {
  }

  /** A mined transaction with exactly the required confirmations still waits. */
  lemma MinedAtThresholdWaits(existingTransactions: TransactionMap, existingKey: Key,
                              requiredConfirmations: nat, link: Linker)
    requires var key := link(existingKey, existingTransactions, requiredConfirmations);
      && |key.transactions| > 0
      && key.transactions[0].status == "mined"
      && key.transactions[0].confirmations == requiredConfirmations
    ensures Watched(existingTransactions, existingKey, requiredConfirmations, link)
            == Some(link(existingKey, existingTransactions, requiredConfirmations).transactions[0])
    ensures Listen(existingTransactions, existingKey, requiredConfirmations, link, []) == Waiting
  {
  }

  /**
   * When the first event that is not an update of another hash is an update
   * of the watched transaction, the call settles with the merged transaction
   * stored under its hash in a copy of the map, every other entry kept, and
   * the key re-linked against that copy.
   */
  lemma SettlesOnFirstMatch(existingTransactions: TransactionMap, existingKey: Key,
                            requiredConfirmations: nat, link: Linker, events: seq<Event>, k: nat)
    requires Watched(existingTransactions, existingKey, requiredConfirmations, link).Some?
    requires var watched := Watched(existingTransactions, existingKey, requiredConfirmations, link).value.hash;
      && k < |events| && events[k].Updated? && events[k].hash == watched
      && forall j :: 0 <= j < k ==> Ignored(watched, events[j])
    ensures var transaction := Watched(existingTransactions, existingKey, requiredConfirmations, link).value;
      var merged := Merge(transaction, events[k].update);
      var outcome := Listen(existingTransactions, existingKey, requiredConfirmations, link, events);
      && outcome.Settled?
      && outcome.transactions.Keys == existingTransactions.Keys + {merged.hash}
      && outcome.transactions[merged.hash] == merged
      && (forall h :: h in existingTransactions && h != merged.hash ==> outcome.transactions[h] == existingTransactions[h])
      && outcome.key == link(existingKey, outcome.transactions, requiredConfirmations)
  {
    var watched := Watched(existingTransactions, existingKey, requiredConfirmations, link).value.hash;
    AwaitFirstRelevant(watched, events, k);
  }

  /** An 'error' event before any update of the watched hash rejects the call, with no result. */
  lemma RejectsOnError(existingTransactions: TransactionMap, existingKey: Key,
                       requiredConfirmations: nat, link: Linker, events: seq<Event>, k: nat)
    requires Watched(existingTransactions, existingKey, requiredConfirmations, link).Some?
    requires var watched := Watched(existingTransactions, existingKey, requiredConfirmations, link).value.hash;
      && k < |events| && events[k].Error?
      && forall j :: 0 <= j < k ==> Ignored(watched, events[j])
    ensures Listen(existingTransactions, existingKey, requiredConfirmations, link, events)
            == Rejected(SourceError(events[k].reason))
  {
    var watched := Watched(existingTransactions, existingKey, requiredConfirmations, link).value.hash;
    AwaitFirstRelevant(watched, events, k);
  }

  /**
   * Required confirmations 2; the watched transaction 0xabc is mined with
   * one confirmation; the source emits an update of 0xabc to three
   * confirmations. The call settles with that transaction at three
   * confirmations, which is now final.
   */
  lemma ConfirmationScenario(existingTransactions: TransactionMap, existingKey: Key, link: Linker)
    requires link(existingKey, existingTransactions, 2).transactions
             == [Transaction("0xabc", "mined", 1, map[])]
    ensures var updated := Transaction("0xabc", "mined", 3, map[]);
      var transactions := existingTransactions["0xabc" := updated];
      && Listen(existingTransactions, existingKey, 2, link, [Updated("0xabc", Update(None, None, Some(3), map[]))])
         == Settled(transactions, link(existingKey, transactions, 2))
      && IsFinal(updated, 2)
  {
    var events := [Updated("0xabc", Update(None, None, Some(3), map[]))];
    AwaitFirstRelevant("0xabc", events, 0);
  }

  /** A transaction that failed is final: the call returns at once and subscribes to nothing. */
  lemma AlreadyFinalScenario(existingTransactions: TransactionMap, existingKey: Key, link: Linker,
                             requiredConfirmations: nat, events: seq<Event>)
    requires link(existingKey, existingTransactions, requiredConfirmations).transactions
             == [Transaction("0xdef", "failed", 0, map[])]
    ensures Listen(existingTransactions, existingKey, requiredConfirmations, link, events)
            == Settled(existingTransactions, existingKey)
    ensures Watched(existingTransactions, existingKey, requiredConfirmations, link) == None
  {
    FinalReturnsInputs(existingTransactions, existingKey, requiredConfirmations, link, events);
  }

  /** `n` copies of `x`. */
  function Repeat<T>(x: T, n: nat): (r: seq<T>)
    ensures |r| == n
  {
    if n == 0 then [] else Repeat(x, n - 1) + [x]
  }

  /** The handler's one-shot registration on 'transaction.updated'. */
  function HandlerRegistration(call: nat): Registration
  {
    Registration(HandleTransactionUpdate(call), true)
  }

  /** The registry operations a waiting call has issued after passing over `mismatches` updates. */
  ghost function CallsWhileWaiting(call: nat, mismatches: nat): seq<Call>
  {
    [CallOn(ErrorChannel, Kill(call)), CallOnce(UpdatedChannel, HandleTransactionUpdate(call))]
    + Repeat(CallOnce(UpdatedChannel, HandleTransactionUpdate(call)), mismatches)
  }

  /** The registry operations one waiting call issues, in order. */
  ghost function CallsDuring(call: nat, r: WaitResult, n: nat): seq<Call>
  {
    CallsWhileWaiting(call, Mismatches(r, n))
    + (if r.Exhausted? then [] else [CallOff(ErrorChannel, Kill(call))])
  }

  /** The 'error' listeners after a waiting call: its own is gone unless it is still waiting. */
  ghost function ErrorListenersAfter(before: seq<Registration>, call: nat, r: WaitResult): seq<Registration>
  {
    match r
    case Matched(_, _) => before
    case Failed(_, _) => Persistent(before)
    case Exhausted => before + [Registration(Kill(call), false)]
  }

  /** The number of 'transaction.updated' events emitted during a waiting call. */
  function UpdatesSeen(r: WaitResult, n: nat): nat
  {
    Mismatches(r, n) + (if r.Matched? then 1 else 0)
  }

  /**
   * The 'transaction.updated' listeners after a waiting call: each emitted
   * update consumed the one-shot registrations, and the handler stays
   * registered unless it matched.
   */
  ghost function UpdateListenersAfter(before: seq<Registration>, call: nat, r: WaitResult, n: nat): seq<Registration>
  {
    (if UpdatesSeen(r, n) > 0 then Persistent(before) else before)
    + (if r.Matched? then [] else [HandlerRegistration(call)])
  }

  /** An emitted update consumes the pending handler and every other one-shot registration. */
  lemma UpdateEmitted(start: seq<Registration>, call: nat, seen: nat)
    ensures Persistent(UpdatesReceived(start, call, seen, true)) == UpdatesReceived(start, call, seen + 1, false)
    ensures UpdatesReceived(start, call, seen + 1, false) + [HandlerRegistration(call)]
            == UpdatesReceived(start, call, seen + 1, true)
  {
    PersistentIdempotent(start);
    if seen > 0 {
      PersistentAppend(Persistent(start), HandlerRegistration(call));
    }
    assert Persistent(start) + [] == Persistent(start);
  }

  /** The wait as seen from before the handler's first registration. */
  lemma HandlerRegistered(before: seq<Registration>, call: nat, seen: nat, handlerPending: bool)
    requires seen == 0 ==> handlerPending
    ensures UpdatesReceived(before + [HandlerRegistration(call)], call, seen, handlerPending)
            == (if seen > 0 then Persistent(before) else before)
               + (if handlerPending then [HandlerRegistration(call)] else [])
  {
    PersistentAppend(before, HandlerRegistration(call));
  }

  lemma {:induction false} RepeatCount<T>(x: T, n: nat, y: T)
    ensures multiset(Repeat(x, n))[y] == if x == y then n else 0
  {
    if n > 0 {
      RepeatCount(x, n - 1, y);
    }
  }

  /**
   * A waiting call registers `kill` on 'error' exactly once and withdraws
   * it exactly once unless it is still waiting; it registers the handler
   * once plus once per update of another hash, and never withdraws it.
   */
  lemma CallsDuringCounts(call: nat, r: WaitResult, n: nat)
    ensures multiset(CallsDuring(call, r, n))[CallOn(ErrorChannel, Kill(call))] == 1
    ensures multiset(CallsDuring(call, r, n))[CallOff(ErrorChannel, Kill(call))] == if r.Exhausted? then 0 else 1
    ensures multiset(CallsDuring(call, r, n))[CallOnce(UpdatedChannel, HandleTransactionUpdate(call))]
            == Mismatches(r, n) + 1
    ensures multiset(CallsDuring(call, r, n))[CallOff(UpdatedChannel, HandleTransactionUpdate(call))] == 0
  {
    var once := CallOnce(UpdatedChannel, HandleTransactionUpdate(call));
    RepeatCount(once, Mismatches(r, n), CallOn(ErrorChannel, Kill(call)));
    RepeatCount(once, Mismatches(r, n), CallOff(ErrorChannel, Kill(call)));
    RepeatCount(once, Mismatches(r, n), once);
    RepeatCount(once, Mismatches(r, n), CallOff(UpdatedChannel, HandleTransactionUpdate(call)));
  }

  /** With only persistent registrations, an emission on a channel leaves it as it was. */
  lemma {:induction false} PersistentOfPersistent(s: seq<Registration>)
    requires forall i :: 0 <= i < |s| ==> !s[i].once
    ensures Persistent(s) == s
  {
    if s != [] {
      assert s == s[..|s| - 1] + [s[|s| - 1]];
      PersistentOfPersistent(s[..|s| - 1]);
    }
  }

  /**
   * Once a wait settles, the 'error' listeners are what they were before
   * the call; after an error this needs that none of them was registered
   * with `once` (the error emission consumes those).
   */
  lemma ErrorListenersRestored(before: seq<Registration>, call: nat, r: WaitResult)
    requires !r.Exhausted?
    requires r.Failed? ==> forall i :: 0 <= i < |before| ==> !before[i].once
    ensures ErrorListenersAfter(before, call, r) == before
  {
    if r.Failed? {
      PersistentOfPersistent(before);
    }
  }

  /**
   * The handler is consumed when it matches, and left registered when the
   * wait fails or is still pending: the failure path withdraws only `kill`.
   */
  lemma HandlerAfterWait(before: seq<Registration>, call: nat, r: WaitResult, n: nat)
    ensures HandlerRegistration(call) in UpdateListenersAfter(before, call, r, n) <==> !r.Matched?
  {
    if r.Matched? {
      PersistentMembers(before, HandlerRegistration(call));
    }
  }

  /** The finally block's `off` completes the log of a settled wait. */
  lemma SettledLogged(before: seq<Call>, call: nat, r: WaitResult, n: nat)
    requires !r.Exhausted?
    ensures (before + CallsWhileWaiting(call, r.at)) + [CallOff(ErrorChannel, Kill(call))]
            == before + CallsDuring(call, r, n)
  {
  }

  lemma MismatchLogged(call: nat, mismatches: nat)
    ensures CallsWhileWaiting(call, mismatches) + [CallOnce(UpdatedChannel, HandleTransactionUpdate(call))]
            == CallsWhileWaiting(call, mismatches + 1)
  {
  }

  /**
   * The 'transaction.updated' listeners after `seen` updates were emitted
   * to a handler registered in `start`: each emission consumed the one-shot
   * registrations, and the handler is back unless it matched.
   */
  ghost function UpdatesReceived(start: seq<Registration>, call: nat, seen: nat, handlerPending: bool)
    : seq<Registration>
  {
    if seen == 0 then start
    else Persistent(start) + (if handlerPending then [HandlerRegistration(call)] else [])
  }

  /**
   * Lines 35-41 and 47 of `updateListener`: the source emits until an
   * update of `watched` resolves the wait or an error rejects it; the
   * handler re-registers itself after every update of another hash.
   */
  method ReceiveUpdate(source: EventSource, watched: string, call: nat) returns (r: WaitResult)
    modifies source
    ensures r == Await(watched, old(source.pending))
    ensures source.pending == old(source.pending)[Consumed(r, |old(source.pending)|)..]
    ensures source.errorListeners
            == if r.Failed? then Persistent(old(source.errorListeners)) else old(source.errorListeners)
    ensures source.updateListeners
            == UpdatesReceived(old(source.updateListeners), call, UpdatesSeen(r, |old(source.pending)|), !r.Matched?)
    ensures source.calls
            == old(source.calls) + Repeat(CallOnce(UpdatedChannel, HandleTransactionUpdate(call)),
                                          Mismatches(r, |old(source.pending)|))
  {
    ghost var events, errorStart, updateStart, callsStart :=
      source.pending, source.errorListeners, source.updateListeners, source.calls;
    var handler := HandleTransactionUpdate(call);
    r := Exhausted;
    var i: nat := 0;
    while source.pending != []
      invariant i <= |events| && source.pending == events[i..]
      invariant forall j :: 0 <= j < i ==> Ignored(watched, events[j])
      invariant r.Exhausted?
      invariant source.errorListeners == errorStart
      invariant source.updateListeners == UpdatesReceived(updateStart, call, i, true)
      invariant source.calls == callsStart + Repeat(CallOnce(UpdatedChannel, handler), i)
      decreases |source.pending|
    {
      var e := source.Emit();
      assert e == events[i] && source.pending == events[i + 1..] by {
        SuffixStep(events, i);
      }
      if e.Error? {
        // kill: the wait is rejected
        assert Await(watched, events) == Failed(e.reason, i) by {
          AwaitFirstRelevant(watched, events, i);
        }
        r := Failed(e.reason, i);
        break;
      }
      assert source.updateListeners == UpdatesReceived(updateStart, call, i + 1, false) by {
        UpdateEmitted(updateStart, call, i);
      }
      if e.hash == watched {
        // done: the wait resolves with this update
        assert Await(watched, events) == Matched(e.update, i) by {
          AwaitFirstRelevant(watched, events, i);
        }
        r := Matched(e.update, i);
        break;
      }
      // only respond to the watched transaction: register for the next update
      source.Once(UpdatedChannel, handler);
      assert source.updateListeners == UpdatesReceived(updateStart, call, i + 1, true) by {
        UpdateEmitted(updateStart, call, i);
      }
      i := i + 1;
    }
    if r.Exhausted? {
      // no event settles the wait: the call stays suspended
      assert Await(watched, events) == Exhausted by {
        AwaitAllIgnored(watched, events);
      }
    }
  }

  /**
   * Lines 27-50 of `updateListener`: registers `kill` on 'error' and the
   * handler once on 'transaction.updated', waits as ReceiveUpdate does, and
   * then, as the finally block does, withdraws `kill`. The handler is left
   * registered on the failure path.
   */
  method WaitForUpdate(source: EventSource, watched: string, call: nat) returns (r: WaitResult)
    modifies source
    ensures r == Await(watched, old(source.pending))
    ensures source.pending == old(source.pending)[Consumed(r, |old(source.pending)|)..]
    ensures source.errorListeners == ErrorListenersAfter(old(source.errorListeners), call, r)
    ensures source.updateListeners
            == UpdateListenersAfter(old(source.updateListeners), call, r, |old(source.pending)|)
    ensures source.calls == old(source.calls) + CallsDuring(call, r, |old(source.pending)|)
  {
    var kill, handler := Kill(call), HandleTransactionUpdate(call);
    ghost var events, errorBefore, updateBefore, callsBefore :=
      source.pending, source.errorListeners, source.updateListeners, source.calls;
    source.On(ErrorChannel, kill);
    source.Once(UpdatedChannel, handler);
    assert source.calls == callsBefore + CallsWhileWaiting(call, 0);
    r := ReceiveUpdate(source, watched, call);
    assert source.updateListeners == UpdateListenersAfter(updateBefore, call, r, |events|) by {
      HandlerRegistered(updateBefore, call, UpdatesSeen(r, |events|), !r.Matched?);
    }
    assert source.calls == callsBefore + CallsWhileWaiting(call, Mismatches(r, |events|));
    if r.Exhausted? {
      // the await never returns, so the finally block does not run
      assert CallsDuring(call, r, |events|) == CallsWhileWaiting(call, Mismatches(r, |events|)) + [];
      return;
    }
    // the finally block: withdraw the 'error' listener on success and failure alike
    ghost var after := ErrorListenersAfter(errorBefore, call, r);
    assert source.errorListeners == after + [Registration(kill, false)] by {
      if r.Failed? {
        PersistentAppend(errorBefore, Registration(kill, false));
      }
    }
    assert RemoveLast(after + [Registration(kill, false)], kill) == after by {
      RemoveLastOfAppended(after, Registration(kill, false));
    }
    source.Off(ErrorChannel, kill);
    assert source.calls == callsBefore + CallsDuring(call, r, |events|) by {
      SettledLogged(callsBefore, call, r, |events|);
    }
  }

  /**
   * `updateListener`: the call numbered `call` owns the closures it registers.
   * Its result is Listen's; when it waits, the source's queue, registries and
   * call log end as WaitForUpdate leaves them, and otherwise it touches
   * nothing.
   */
  method UpdateListener(existingTransactions: TransactionMap, existingKey: Key, source: EventSource,
                        requiredConfirmations: nat, link: Linker, call: nat)
    returns (outcome: Outcome)
    modifies source
    ensures outcome == Listen(existingTransactions, existingKey, requiredConfirmations, link, old(source.pending))
    ensures Watched(existingTransactions, existingKey, requiredConfirmations, link).None? ==> unchanged(source)
    ensures Watched(existingTransactions, existingKey, requiredConfirmations, link).Some? ==>
      var events := old(source.pending);
      var r := Await(Watched(existingTransactions, existingKey, requiredConfirmations, link).value.hash, events);
      && source.pending == events[Consumed(r, |events|)..]
      && source.errorListeners == ErrorListenersAfter(old(source.errorListeners), call, r)
      && source.updateListeners == UpdateListenersAfter(old(source.updateListeners), call, r, |events|)
      && source.calls == old(source.calls) + CallsDuring(call, r, |events|)
  {
    var key := link(existingKey, existingTransactions, requiredConfirmations);
    if |key.transactions| == 0 {
      // reading the status of a missing transaction throws
      return Rejected(NoAuthoritativeTransaction);
    }
    var transaction := key.transactions[0];
    if IsFinal(transaction, requiredConfirmations) {
      return Settled(existingTransactions, existingKey);
    }
    var r := WaitForUpdate(source, transaction.hash, call);
    match r {
      case Exhausted =>
        outcome := Waiting;
      case Failed(reason, _) =>
        outcome := Rejected(SourceError(reason));
      case Matched(update, _) =>
        var newTransaction := Merge(transaction, update);
        var transactions := Insert(existingTransactions, newTransaction);
        outcome := Settled(transactions, link(existingKey, transactions, requiredConfirmations));
    }
  }

  /**
   * A client that exercises UpdateListener from end to end; it has no
   * counterpart in the listener itself. The source first emits an update
   * of another transaction and then one of the watched transaction. The
   * call re-registers its handler once, settles with the merged
   * transaction, and leaves the source's registries as empty as it found
   * them.
   */
  method SingleMatchClient()
  {
    var update := Update(None, None, Some(3), map[]);
    var other := Update(None, Some("failed"), None, map[]);
    var source := new EventSource([Updated("0xaaa", other), Updated("0xabc", update)]);
    var existing := map["0xabc" := Transaction("0xabc", "mined", 1, map[])];
    var link: Linker := (key: Key, transactions: TransactionMap, n: nat) =>
      if "0xabc" in transactions then Key([transactions["0xabc"]], key.extra) else key;
    var outcome := UpdateListener(existing, Key([], map[]), source, 2, link, 7);
    AwaitFirstRelevant("0xabc", [Updated("0xaaa", other), Updated("0xabc", update)], 1);
    assert outcome.Settled? && outcome.transactions["0xabc"] == Transaction("0xabc", "mined", 3, map[]);
    assert source.pending == [] && source.errorListeners == [] && source.updateListeners == [];
  }
}
