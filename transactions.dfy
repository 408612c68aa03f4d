/**
 * Transactions as the paywall's data iframe holds them: records keyed by
 * their hash, a status string, a confirmation count and further fields that
 * are carried through untouched. This module holds the finality rule the
 * update listener applies to a key's authoritative transaction, the
 * field-wise merge of an update into a transaction (the object spread
 * `{...transaction, ...update}`) and the insertion of the merged
 * transaction into a copy of the transaction map.
 */
module Transactions {
  import opened Wrappers

  /** A value of a field this core carries through without interpreting it. */
  datatype Value = Str(s: string) | Num(n: int) | Bool(b: bool) | Null

  /** The statuses the listener tells apart; every other status string is Other. */
  datatype Status = Submitted | Pending | Mined | Other(name: string)

  /** The statuses of a transaction that is still in flight, in the source's order. */
  const InFlightStatuses: seq<string> := ["submitted", "pending", "mined"]

  function Classify(name: string): (s: Status)
    ensures s.Other? <==> name !in InFlightStatuses
    ensures s == Mined <==> name == "mined"
  {
    if name == "submitted" then Submitted
    else if name == "pending" then Pending
    else if name == "mined" then Mined
    else Other(name)
  }

  function Name(s: Status): string
  {
    match s
    case Submitted => "submitted"
    case Pending => "pending"
    case Mined => "mined"
    case Other(name) => name
  }

  /** Classifying a status string loses nothing: its name is the string itself. */
  lemma ClassifyThenName(name: string)
    ensures Name(Classify(name)) == name
  {
  }

  /** A status whose Other name is not reserved is recovered from its name. */
  lemma NameThenClassify(s: Status)
    requires s.Other? ==> s.name !in InFlightStatuses
    ensures Classify(Name(s)) == s
  {
  }

  /** The field names a transaction object has as named attributes. */
  const Reserved: set<string> := {"hash", "status", "confirmations"}

  datatype Transaction = Transaction(
    hash: string,
    status: string,
    confirmations: nat,
    extra: map<string, Value>)

  /** An update: every field it carries overrides the transaction's field of that name. */
  datatype Update = Update(
    hash: Option<string>,
    status: Option<string>,
    confirmations: Option<nat>,
    extra: map<string, Value>)

  type TransactionMap = map<string, Transaction>

  /** The opaque extra fields never shadow a named attribute. */
  predicate WellFormed(t: Transaction)
  {
    t.extra.Keys !! Reserved
  }

  predicate WellFormedUpdate(u: Update)
  {
    u.extra.Keys !! Reserved
  }

  /**
   * Whether the listener stops watching: the status is not one of
   * submitted, pending or mined, or it is mined with strictly more
   * confirmations than required.
   */
  function IsFinal(t: Transaction, requiredConfirmations: nat): (r: bool)
    ensures r <==> t.status !in InFlightStatuses
                   || (t.status == "mined" && t.confirmations > requiredConfirmations)
  {
    match Classify(t.status)
    case Other(_) => true
    case Mined => t.confirmations > requiredConfirmations
    case _ => false
  }

  /** A transaction seen as the JavaScript object it is: every field by name. */
  function Fields(t: Transaction): map<string, Value>
  {
    t.extra["hash" := Str(t.hash)]["status" := Str(t.status)]["confirmations" := Num(t.confirmations)]
  }

  /** An update seen as a JavaScript object: only the fields it carries. */
  function UpdateFields(u: Update): map<string, Value>
  {
    var withHash := if u.hash.Some? then u.extra["hash" := Str(u.hash.value)] else u.extra;
    var withStatus := if u.status.Some? then withHash["status" := Str(u.status.value)] else withHash;
    if u.confirmations.Some? then withStatus["confirmations" := Num(u.confirmations.value)] else withStatus
  }

  /** The transaction overwritten field by field with the update. */
  function Merge(t: Transaction, u: Update): (r: Transaction)
    ensures WellFormed(t) && WellFormedUpdate(u) ==> WellFormed(r)
  {
    Transaction(
      if u.hash.Some? then u.hash.value else t.hash,
      if u.status.Some? then u.status.value else t.status,
      if u.confirmations.Some? then u.confirmations.value else t.confirmations,
      t.extra + u.extra)
  }

  /**
   * The merge is the object spread `{...t, ...u}`: the merged object has every
   * field of either, the update's value where the update carries the field
   * and the transaction's value everywhere else.
   */
  lemma MergeIsSpread(t: Transaction, u: Update)
    requires WellFormed(t) && WellFormedUpdate(u)
    ensures Fields(Merge(t, u)) == Fields(t) + UpdateFields(u)
  {
    var m := Merge(t, u);
    var lhs, rhs := Fields(m), Fields(t) + UpdateFields(u);
    assert lhs.Keys == rhs.Keys;
    forall f | f in lhs
      ensures lhs[f] == rhs[f]
    {
      if f in Reserved {
        assert f !in t.extra && f !in u.extra;
      } else {
        assert f in m.extra;
      }
    }
  }

  /** A copy of the map in which the transaction is stored under its own hash. */
  function Insert(m: TransactionMap, t: Transaction): (r: TransactionMap)
    ensures r.Keys == m.Keys + {t.hash}
    ensures r[t.hash] == t
    ensures forall h :: h in m && h != t.hash ==> r[h] == m[h]
  {
    m[t.hash := t]
  }

  /**
   * An update of the confirmations alone, applied to a mined transaction
   * with one more field: the confirmations change and every other field
   * survives.
   */
  lemma MergeExample(h: string)
    ensures var t := Transaction(h, "mined", 1, map["foo" := Str("x")]);
      Fields(Merge(t, Update(None, None, Some(3), map[])))
      == map["hash" := Str(h), "status" := Str("mined"), "confirmations" := Num(3), "foo" := Str("x")]
  {
    var t := Transaction(h, "mined", 1, map["foo" := Str("x")]);
    MergeIsSpread(t, Update(None, None, Some(3), map[]));
  }
}
