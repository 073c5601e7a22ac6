/**
  The document store's query semantics, as the service relies on them:
  `where(field, op, value)` filters, `order_by(field)` in either direction, and
  `limit(n)`, over one collection (document id to document).

  A document takes part in a query only if it holds the ordered field. Keys are
  ints or strings; every int sorts before every string, ints compare
  numerically and strings by code point. A range filter only matches keys of
  its own type. Documents with equal keys are ordered by document id, and a
  descending query reverses the whole order.
 */
module Query {
  import opened Text
  import opened Values

  datatype Key = IntKey(i: int) | StrKey(s: string)

  /** The key a document has for `field`, if it has one of an orderable type. */
  function KeyOf(d: Doc, field: string): Option<Key>
  {
    if field !in d then None
    else
      match d[field]
      case Int(i) => Some(IntKey(i))
      case Str(s) => Some(StrKey(s))
      case _ => None
  }

  predicate KeyLess(a: Key, b: Key)
  {
    match (a, b)
    case (IntKey(x), IntKey(y)) => x < y
    case (IntKey(_), StrKey(_)) => true
    case (StrKey(_), IntKey(_)) => false
    case (StrKey(x), StrKey(y)) => LexLess(x, y)
  }

  lemma KeyLessIrreflexive(a: Key)
    ensures !KeyLess(a, a)
  {
    if a.StrKey? {
      LexLessIrreflexive(a.s);
    }
  }

  lemma KeyLessTransitive(a: Key, b: Key, c: Key)
    requires KeyLess(a, b) && KeyLess(b, c)
    ensures KeyLess(a, c)
  {
    if a.StrKey? && b.StrKey? && c.StrKey? {
      LexLessTransitive(a.s, b.s, c.s);
    }
  }

  lemma KeyLessTotal(a: Key, b: Key)
    ensures a == b || KeyLess(a, b) || KeyLess(b, a)
  {
    if a.StrKey? && b.StrKey? {
      LexLessTotal(a.s, b.s);
    }
  }

  datatype Op = Eq | Ge | Le

  datatype Filter = Filter(op: Op, bound: Key)

  predicate SameType(a: Key, b: Key)
  {
    a.IntKey? == b.IntKey?
  }

  predicate Passes(k: Key, f: Filter)
  {
    match f.op
    case Eq => k == f.bound
    case Ge => SameType(k, f.bound) && !KeyLess(k, f.bound)
    case Le => SameType(k, f.bound) && !KeyLess(f.bound, k)
  }

  /** A query on one collection: filters and order on the same field. */
  datatype Query = Query(field: string, filters: seq<Filter>, descending: bool, limit: Option<nat>)

  /** A collection: document id to document. */
  type Coll = map<string, Doc>

  predicate Selected(c: Coll, q: Query, id: string)
  {
    id in c && KeyOf(c[id], q.field).Some? &&
    forall j :: 0 <= j < |q.filters| ==> Passes(KeyOf(c[id], q.field).value, q.filters[j])
  }

  /** Ascending order on (key, document id). */
  predicate AscBefore(k1: Key, id1: string, k2: Key, id2: string)
  {
    KeyLess(k1, k2) || (k1 == k2 && LexLess(id1, id2))
  }

  /** Document `a` comes before document `b` in the query's order. */
  predicate Before(c: Coll, q: Query, a: string, b: string)
  {
    a in c && b in c && KeyOf(c[a], q.field).Some? && KeyOf(c[b], q.field).Some? &&
    var ka, kb := KeyOf(c[a], q.field).value, KeyOf(c[b], q.field).value;
    if q.descending then AscBefore(kb, b, ka, a) else AscBefore(ka, a, kb, b)
  }

  lemma BeforeIrreflexive(c: Coll, q: Query, a: string)
    ensures !Before(c, q, a, a)
  {
    if a in c && KeyOf(c[a], q.field).Some? {
      KeyLessIrreflexive(KeyOf(c[a], q.field).value);
      LexLessIrreflexive(a);
    }
  }

  lemma BeforeTransitive(c: Coll, q: Query, a: string, b: string, d: string)
    requires Before(c, q, a, b) && Before(c, q, b, d)
    ensures Before(c, q, a, d)
  {
    var ka, kb, kd := KeyOf(c[a], q.field).value, KeyOf(c[b], q.field).value, KeyOf(c[d], q.field).value;
    if q.descending {
      AscTransitive(kd, d, kb, b, ka, a);
    } else {
      AscTransitive(ka, a, kb, b, kd, d);
    }
  }

  lemma AscTransitive(k1: Key, id1: string, k2: Key, id2: string, k3: Key, id3: string)
    requires AscBefore(k1, id1, k2, id2) && AscBefore(k2, id2, k3, id3)
    ensures AscBefore(k1, id1, k3, id3)
  {
    if KeyLess(k1, k2) && KeyLess(k2, k3) {
      KeyLessTransitive(k1, k2, k3);
    } else if k1 == k2 && k2 == k3 {
      LexLessTransitive(id1, id2, id3);
    }
  }

  lemma BeforeTotal(c: Coll, q: Query, a: string, b: string)
    requires Selected(c, q, a) && Selected(c, q, b) && a != b
    ensures Before(c, q, a, b) || Before(c, q, b, a)
  {
    KeyLessTotal(KeyOf(c[a], q.field).value, KeyOf(c[b], q.field).value);
    LexLessTotal(a, b);
  }

  lemma BeforeAsymmetric(c: Coll, q: Query, a: string, b: string)
    ensures Before(c, q, a, b) ==> !Before(c, q, b, a)
  {
    if Before(c, q, a, b) && Before(c, q, b, a) {
      BeforeTransitive(c, q, a, b, a);
      BeforeIrreflexive(c, q, a);
    }
  }

  /** `ids` is what the store streams for `q`: selected documents only, in
      strictly increasing query order, at most `limit` of them, and every
      selected document left out comes after all of them, past the limit. */
  predicate IsAnswer(c: Coll, q: Query, ids: seq<string>)
  {
    (forall i :: 0 <= i < |ids| ==> Selected(c, q, ids[i])) &&
    (forall i, j :: 0 <= i < j < |ids| ==> Before(c, q, ids[i], ids[j])) &&
    (q.limit.Some? ==> |ids| <= q.limit.value) &&
    (forall id :: id in c && Selected(c, q, id) && id !in ids ==>
       q.limit.Some? && |ids| == q.limit.value && forall i :: 0 <= i < |ids| ==> Before(c, q, ids[i], id))
  }

  /** `m` comes before every other document of `s`. */
  predicate IsFirst(c: Coll, q: Query, s: set<string>, m: string)
  {
    m in s && forall x :: x in s && x != m ==> Before(c, q, m, x)
  }

  /** Every finite, non-empty set of selected documents has a first one. */
  lemma {:induction false} FirstExists(c: Coll, q: Query, s: set<string>)
    requires s != {} && forall x :: x in s ==> Selected(c, q, x)
    ensures exists m :: IsFirst(c, q, s, m)
    decreases |s|
  {
    var x :| x in s;
    if s == {x} {
      assert IsFirst(c, q, s, x);
    } else {
      var rest := s - {x};
      FirstExists(c, q, rest);
      var m :| IsFirst(c, q, rest, m);
      BeforeTotal(c, q, x, m);
      if Before(c, q, x, m) {
        BeforeFirst(c, q, rest, m, x);
        assert IsFirst(c, q, s, x);
      } else {
        assert IsFirst(c, q, s, m);
      }
    }
  }

  /** A document before the first of `s` is before all of `s`. */
  lemma BeforeFirst(c: Coll, q: Query, s: set<string>, m: string, x: string)
    requires IsFirst(c, q, s, m) && Before(c, q, x, m)
    ensures forall y :: y in s ==> Before(c, q, x, y)
  {
    forall y | y in s
      ensures Before(c, q, x, y)
    {
      if y != m {
        BeforeTransitive(c, q, x, m, y);
      }
    }
  }

  /** Runs `q` over `c`, taking the first remaining selected document until
      none is left or the limit is reached. */
  method Run(c: Coll, q: Query) returns (ids: seq<string>)
    ensures IsAnswer(c, q, ids)
  {
    ids := [];
    var rest := set id | id in c && Selected(c, q, id);
    while rest != {} && (q.limit.None? || |ids| < q.limit.value)
      invariant forall id :: id in rest <==> Selected(c, q, id) && id !in ids
      invariant forall i :: 0 <= i < |ids| ==> Selected(c, q, ids[i])
      invariant forall i, j :: 0 <= i < j < |ids| ==> Before(c, q, ids[i], ids[j])
      invariant forall i, id :: 0 <= i < |ids| && id in rest ==> Before(c, q, ids[i], id)
      invariant q.limit.Some? ==> |ids| <= q.limit.value
      decreases |rest|
    {
      FirstExists(c, q, rest);
      var m :| IsFirst(c, q, rest, m);
      ids := ids + [m];
      rest := rest - {m};
    }
  }

  /** The first document of an answer comes before every other selected one. */
  lemma AnswerHead(c: Coll, q: Query, a: seq<string>)
    requires IsAnswer(c, q, a) && a != []
    ensures forall id :: Selected(c, q, id) && id != a[0] ==> Before(c, q, a[0], id)
  {
    forall id | Selected(c, q, id) && id != a[0]
      ensures Before(c, q, a[0], id)
    {
      if id in a {
        var k :| 0 <= k < |a| && a[k] == id;
        assert k > 0;
      }
    }
  }

  /** An answer is empty exactly when nothing is selected or the limit is 0. */
  lemma AnswerEmpty(c: Coll, q: Query, a: seq<string>)
    requires IsAnswer(c, q, a)
    ensures a == [] <==> q.limit == Some(0) || forall id :: !Selected(c, q, id)
  {
    if a == [] {
      if exists id :: Selected(c, q, id) {
        var id :| Selected(c, q, id);
        assert id in c && id !in a;
      }
    } else {
      assert Selected(c, q, a[0]);
    }
  }

  /** The query with one fewer result allowed. */
  function Shrink(q: Query): Query
  {
    if q.limit.Some? && q.limit.value > 0 then q.(limit := Some(q.limit.value - 1)) else q
  }

  /** Dropping the first document of an answer answers the same query, one
      place shorter, over the collection without that document. */
  lemma AnswerTail(c: Coll, q: Query, a: seq<string>)
    requires IsAnswer(c, q, a) && a != []
    ensures IsAnswer(c - {a[0]}, Shrink(q), a[1..])
  {
    TailSelectedInOrder(c, q, a);
    TailComplete(c, q, a);
  }

  lemma TailSelectedInOrder(c: Coll, q: Query, a: seq<string>)
    requires IsAnswer(c, q, a) && a != []
    ensures forall i :: 0 <= i < |a[1..]| ==> Selected(c - {a[0]}, Shrink(q), a[1..][i])
    ensures forall i, j :: 0 <= i < j < |a[1..]| ==> Before(c - {a[0]}, Shrink(q), a[1..][i], a[1..][j])
  {
    var c', t := c - {a[0]}, a[1..];
    BeforeIrreflexive(c, q, a[0]);
    forall i | 0 <= i < |t|
      ensures Selected(c', Shrink(q), t[i])
    {
      assert t[i] == a[i + 1] && Before(c, q, a[0], a[i + 1]);
    }
    forall i, j | 0 <= i < j < |t|
      ensures Before(c', Shrink(q), t[i], t[j])
    {
      assert t[i] == a[i + 1] && t[j] == a[j + 1];
      assert Before(c, q, a[i + 1], a[j + 1]);
    }
  }

  lemma TailComplete(c: Coll, q: Query, a: seq<string>)
    requires IsAnswer(c, q, a) && a != []
    ensures Shrink(q).limit.Some? ==> |a[1..]| <= Shrink(q).limit.value
    ensures forall id :: id in c - {a[0]} && Selected(c - {a[0]}, Shrink(q), id) && id !in a[1..] ==>
      Shrink(q).limit.Some? && |a[1..]| == Shrink(q).limit.value &&
      forall i :: 0 <= i < |a[1..]| ==> Before(c - {a[0]}, Shrink(q), a[1..][i], id)
  {
    var c', t := c - {a[0]}, a[1..];
    forall id | id in c' && Selected(c', Shrink(q), id) && id !in t
      ensures Shrink(q).limit.Some? && |t| == Shrink(q).limit.value
      ensures forall i :: 0 <= i < |t| ==> Before(c', Shrink(q), t[i], id)
    {
      assert Selected(c, q, id) && id !in a;
      BeforeIrreflexive(c, q, a[0]);
      forall i | 0 <= i < |t|
        ensures Before(c', Shrink(q), t[i], id)
      {
        assert t[i] == a[i + 1] && Before(c, q, a[0], a[i + 1]) && Before(c, q, a[i + 1], id);
      }
    }
  }

  /** Two answers to one query start with the same document. */
  lemma AnswerHeadsAgree(c: Coll, q: Query, a: seq<string>, b: seq<string>)
    requires IsAnswer(c, q, a) && IsAnswer(c, q, b) && a != [] && b != []
    ensures a[0] == b[0]
  {
    AnswerHead(c, q, a);
    AnswerHead(c, q, b);
    assert Selected(c, q, a[0]) && Selected(c, q, b[0]);
    BeforeAsymmetric(c, q, a[0], b[0]);
  }

  /** Two answers to one query are empty together. */
  lemma AnswersEmptyTogether(c: Coll, q: Query, a: seq<string>, b: seq<string>)
    requires IsAnswer(c, q, a) && IsAnswer(c, q, b)
    ensures a == [] <==> b == []
  {
    AnswerEmpty(c, q, a);
    AnswerEmpty(c, q, b);
  }

  /** A query has only one answer: what the store streams is determined by
      the collection and the query. */
  lemma {:induction false} AnswerUnique(c: Coll, q: Query, a: seq<string>, b: seq<string>)
    requires IsAnswer(c, q, a) && IsAnswer(c, q, b)
    ensures a == b
    decreases |a|
  {
    AnswersEmptyTogether(c, q, a, b);
    if a != [] {
      AnswerHeadsAgree(c, q, a, b);
      AnswerTail(c, q, a);
      AnswerTail(c, q, b);
      AnswerUnique(c - {a[0]}, Shrink(q), a[1..], b[1..]);
      assert a == [a[0]] + a[1..] && b == [b[0]] + b[1..];
    }
  }
}
