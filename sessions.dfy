/**
 * Session state as the executor wrapper sees it: the five fields it copies
 * from a request's `session` snapshot onto a `SessionController`, and the
 * order-sensitive, stop-at-the-first-error way in which it copies them.
 */
module Sessions {
  import opened Wrappers
  import opened Json

  /** The five session fields the wrapper resynchronises. */
  datatype Field = Database | Username | Auth | PreparedStmts | PacketSequenceNumber

  /** The key of a field in the request's `session` dictionary. */
  function FieldName(f: Field): string {
    match f
    case Database => "database"
    case Username => "username"
    case Auth => "auth"
    case PreparedStmts => "prepared_stmts"
    case PacketSequenceNumber => "packet_sequence_number"
  }

  /** The order in which the wrapper assigns the fields. */
  const FieldOrder: seq<Field> := [Database, Username, Auth, PreparedStmts, PacketSequenceNumber]

  /** The wrapper assigns every field. */
  lemma EveryFieldOrdered()
    ensures forall f :: f in FieldOrder
  {
    forall f ensures f in FieldOrder {
      match f
      case Database => assert FieldOrder[0] == f;
      case Username => assert FieldOrder[1] == f;
      case Auth => assert FieldOrder[2] == f;
      case PreparedStmts => assert FieldOrder[3] == f;
      case PacketSequenceNumber => assert FieldOrder[4] == f;
    }
  }

  /** A value of the five fields of one session. */
  datatype SessionFields = SessionFields(
    database: Json, username: Json, auth: Json, preparedStmts: Json, packetSequenceNumber: Json)
  {
    function Get(f: Field): Json {
      match f
      case Database => database
      case Username => username
      case Auth => auth
      case PreparedStmts => preparedStmts
      case PacketSequenceNumber => packetSequenceNumber
    }

    function Set(f: Field, v: Json): (r: SessionFields)
      ensures r.Get(f) == v
      ensures forall g :: g != f ==> r.Get(g) == Get(g)
    {
      match f
      case Database => this.(database := v)
      case Username => this.(username := v)
      case Auth => this.(auth := v)
      case PreparedStmts => this.(preparedStmts := v)
      case PacketSequenceNumber => this.(packetSequenceNumber := v)
    }
  }

  /** Two field values are equal when they agree on every field. */
  lemma FieldsExtensional(a: SessionFields, b: SessionFields)
    requires forall f :: a.Get(f) == b.Get(f)
    ensures a == b
  {
    assert a.Get(Database) == b.Get(Database);
    assert a.Get(Username) == b.Get(Username);
    assert a.Get(Auth) == b.Get(Auth);
    assert a.Get(PreparedStmts) == b.Get(PreparedStmts);
    assert a.Get(PacketSequenceNumber) == b.Get(PacketSequenceNumber);
  }

  /**
   * Assign `session.<f> = snapshot[<f>]` for each field of `order` in turn;
   * the first lookup that raises stops the sequence, and the assignments
   * made before it stay in place.
   */
  function Overwrite(base: SessionFields, snapshot: Json, order: seq<Field>): (r: (SessionFields, Option<Error>))
    // a snapshot that is not a dictionary raises before any assignment
    ensures !snapshot.JObject? && order != [] ==> r == (base, Some(TypeError(NotSubscriptable)))
    // on a dictionary, the only exception is the KeyError of a named field it lacks
    ensures snapshot.JObject? && r.1.Some? ==>
              exists f :: f in order && FieldName(f) !in snapshot.fields && r.1.value == KeyError(FieldName(f))
    decreases |order|
  {
    if order == [] then (base, None)
    else
      match Subscript(snapshot, FieldName(order[0]))
      case Failure(e) => (base, Some(e))
      case Success(v) => Overwrite(base.Set(order[0], v), snapshot, order[1..])
  }

  /**
   * An overwrite touches only the fields it names, raises exactly when one
   * of them is missing from the snapshot, and otherwise leaves each named
   * field holding the snapshot's value.
   */
  lemma {:induction false} OverwriteSpec(base: SessionFields, snapshot: Json, order: seq<Field>)
    ensures forall f :: f !in order ==> Overwrite(base, snapshot, order).0.Get(f) == base.Get(f)
    ensures Overwrite(base, snapshot, order).1.None? <==> forall f :: f in order ==> Subscript(snapshot, FieldName(f)).Success?
    ensures Overwrite(base, snapshot, order).1.None? ==>
              forall f :: f in order ==> Overwrite(base, snapshot, order).0.Get(f) == Subscript(snapshot, FieldName(f)).value
    decreases |order|
  {
    if order != [] {
      match Subscript(snapshot, FieldName(order[0]))
      case Failure(_) =>
      case Success(v) =>
        OverwriteSpec(base.Set(order[0], v), snapshot, order[1..]);
        assert forall f :: f in order ==> f == order[0] || f in order[1..];
    }
  }

  /** The resynchronisation the wrapper performs on a cache miss. */
  function Resync(base: SessionFields, snapshot: Json): (r: (SessionFields, Option<Error>))
    ensures r.1.None? <==> Complete(snapshot)
    ensures !snapshot.JObject? ==> r == (base, Some(TypeError(NotSubscriptable)))
  {
    OverwriteSpec(base, snapshot, FieldOrder);
    EveryFieldOrdered();
    Overwrite(base, snapshot, FieldOrder)
  }

  /** The snapshot carries all five fields. */
  predicate Complete(snapshot: Json) {
    forall f :: Subscript(snapshot, FieldName(f)).Success?
  }

  /** The session field values a complete snapshot describes. */
  function SnapshotFields(snapshot: Json): SessionFields
    requires Complete(snapshot)
  {
    SessionFields(
      Subscript(snapshot, FieldName(Database)).value,
      Subscript(snapshot, FieldName(Username)).value,
      Subscript(snapshot, FieldName(Auth)).value,
      Subscript(snapshot, FieldName(PreparedStmts)).value,
      Subscript(snapshot, FieldName(PacketSequenceNumber)).value)
  }

  /**
   * A complete snapshot overwrites the session, it does not merge into it:
   * whatever the session held before, afterwards it holds exactly the
   * snapshot's values and no error is raised.
   */
  lemma ResyncIsOverwrite(base: SessionFields, snapshot: Json)
    requires Complete(snapshot)
    ensures Resync(base, snapshot) == (SnapshotFields(snapshot), None)
  {
    var r := Resync(base, snapshot);
    OverwriteSpec(base, snapshot, FieldOrder);
    EveryFieldOrdered();
    FieldsExtensional(r.0, SnapshotFields(snapshot));
  }

  /** Only the latest complete snapshot matters: an earlier resynchronisation leaves no trace. */
  lemma LatestSnapshotWins(base: SessionFields, earlier: Json, later: Json)
    requires Complete(later)
    ensures Resync(Resync(base, earlier).0, later) == Resync(base, later)
  {
    ResyncIsOverwrite(base, later);
    ResyncIsOverwrite(Resync(base, earlier).0, later);
  }

  /**
   * When the `k`-th field of `order` is the first one missing from the
   * snapshot, the fields before it hold the snapshot's values, the rest keep
   * their old values, and the lookup's exception is raised.
   */
  lemma {:induction false} OverwriteStopsAtFirstMissing(base: SessionFields, snapshot: Json, order: seq<Field>, k: nat)
    requires k < |order|
    requires forall i :: 0 <= i < k ==> Subscript(snapshot, FieldName(order[i])).Success?
    requires Subscript(snapshot, FieldName(order[k])).Failure?
    ensures Overwrite(base, snapshot, order).1 == Some(Subscript(snapshot, FieldName(order[k])).error)
    ensures Overwrite(base, snapshot, order).0 == Overwrite(base, snapshot, order[..k]).0
    decreases k
  {
    if k == 0 {
      assert order[..0] == [];
    } else {
      var v := Subscript(snapshot, FieldName(order[0])).value;
      OverwriteStopsAtFirstMissing(base.Set(order[0], v), snapshot, order[1..], k - 1);
      assert order[..k][1..] == order[1..][..k - 1];
    }
  }

  /** A field that already holds the snapshot's value keeps it through an overwrite. */
  lemma {:induction false} OverwriteKeepsAgreeing(base: SessionFields, snapshot: Json, order: seq<Field>, g: Field)
    requires Subscript(snapshot, FieldName(g)) == Success(base.Get(g))
    ensures Overwrite(base, snapshot, order).0.Get(g) == base.Get(g)
    decreases |order|
  {
    if order != [] {
      match Subscript(snapshot, FieldName(order[0]))
      case Failure(_) =>
      case Success(v) =>
        OverwriteKeepsAgreeing(base.Set(order[0], v), snapshot, order[1..], g);
    }
  }

  /** Resynchronising twice from the same snapshot is the same as once, even for an incomplete snapshot. */
  lemma {:induction false} OverwriteIdempotent(base: SessionFields, snapshot: Json, order: seq<Field>)
    ensures Overwrite(Overwrite(base, snapshot, order).0, snapshot, order) == Overwrite(base, snapshot, order)
    decreases |order|
  {
    if order != [] {
      match Subscript(snapshot, FieldName(order[0]))
      case Failure(_) =>
      case Success(v) =>
        var first := base.Set(order[0], v);
        var once := Overwrite(first, snapshot, order[1..]);
        OverwriteKeepsAgreeing(first, snapshot, order[1..], order[0]);
        FieldsExtensional(once.0.Set(order[0], v), once.0);
        OverwriteIdempotent(first, snapshot, order[1..]);
    }
  }

  /** The session state the wrapper's `SessionController` carries. */
  class SessionController {
    var database: Json
    var username: Json
    var auth: Json
    var preparedStmts: Json
    var packetSequenceNumber: Json

    /** `SessionController()`: its initial field values are not part of this model. */
    constructor ()
    {
    }

    function Fields(): SessionFields
      reads this
    {
      SessionFields(database, username, auth, preparedStmts, packetSequenceNumber)
    }
  }
}
