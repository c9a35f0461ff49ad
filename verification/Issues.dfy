/**
 * Issues, their statuses, and the field-by-field overlay `{ ...issue, ...patch }`
 * through which every cache write of the client goes.
 */
module Issues {
  import opened Prelude

  type Id = string

  datatype Status = Backlog | Todo | InProgress | InReview | Done | Blocked | Cancelled

  const PAGINATED_STATUSES: seq<Status> := [Backlog, Todo, InProgress, InReview, Done, Blocked]

  lemma PaginatedIff(s: Status)
    ensures s in PAGINATED_STATUSES <==> s != Cancelled
  {
    assert PAGINATED_STATUSES[0] == Backlog && PAGINATED_STATUSES[1] == Todo && PAGINATED_STATUSES[2] == InProgress
           && PAGINATED_STATUSES[3] == InReview && PAGINATED_STATUSES[4] == Done && PAGINATED_STATUSES[5] == Blocked;
  }

  /** The columns of an issue that no cache rule looks at. */
  datatype Column =
    | WorkspaceId | Number | Identifier | Title | Description | Priority
    | AssigneeType | AssigneeId | CreatorType | CreatorId | ProjectId
    | Position | DueDate | Reactions | CreatedAt | UpdatedAt

  datatype Issue = Issue(id: Id, status: Status, parent: Option<Id>, data: map<Column, string>)

  /** A partial issue: only the present columns are written. `parent` may be present and null. */
  datatype Patch = Patch(status: Option<Status>, parent: Option<Option<Id>>, data: map<Column, string>)

  function Merge(i: Issue, p: Patch): Issue {
    Issue(i.id,
          if p.status.Some? then p.status.value else i.status,
          if p.parent.Some? then p.parent.value else i.parent,
          i.data + p.data)
  }

  /** `after` is `before` with exactly the fields of `p` replaced by the values in `p`. */
  ghost predicate WrittenOver(before: Issue, p: Patch, after: Issue) {
    && after.id == before.id
    && after.status == (if p.status.Some? then p.status.value else before.status)
    && after.parent == (if p.parent.Some? then p.parent.value else before.parent)
    && (forall c :: c in p.data ==> c in after.data && after.data[c] == p.data[c])
    && (forall c :: c !in p.data ==> (c in after.data <==> c in before.data))
    && (forall c :: c !in p.data && c in before.data ==> after.data[c] == before.data[c])
  }

  lemma MergeWrites(i: Issue, p: Patch)
    ensures WrittenOver(i, p, Merge(i, p))
  {
  }

  /** The single patch with the effect of `p` followed by `q`. */
  function Then(p: Patch, q: Patch): Patch {
    Patch(OrElse(q.status, p.status), OrElse(q.parent, p.parent), p.data + q.data)
  }

  lemma MergeThen(i: Issue, p: Patch, q: Patch)
    ensures Merge(Merge(i, p), q) == Merge(i, Then(p, q))
  {
    assert (i.data + p.data) + q.data == i.data + (p.data + q.data);
  }

  lemma MergeTwice(i: Issue, p: Patch)
    ensures Merge(Merge(i, p), p) == Merge(i, p)
  {
    assert (i.data + p.data) + p.data == i.data + p.data;
  }

  // ----- single fields -----

  datatype Field = StatusField | ParentField | Col(column: Column)

  const FIELDS: set<Field> := {StatusField, ParentField} + set c: Column :: Col(c)

  /** The fields a payload carries. */
  function Fields(p: Patch): (r: set<Field>)
    ensures r <= FIELDS
  {
    (if p.status.Some? then {StatusField} else {}) + (if p.parent.Some? then {ParentField} else {})
    + set c | c in p.data :: Col(c)
  }

  ghost predicate SameOn(f: Field, a: Issue, b: Issue) {
    match f
    case StatusField => a.status == b.status
    case ParentField => a.parent == b.parent
    case Col(c) => (c in a.data <==> c in b.data) && (c in a.data ==> a.data[c] == b.data[c])
  }

  /** A merge determines the fields it carries and leaves the others alone. */
  lemma MergeOn(f: Field, x: Issue, y: Issue, p: Patch)
    ensures f in Fields(p) ==> SameOn(f, Merge(x, p), Merge(y, p))
    ensures f !in Fields(p) ==> SameOn(f, Merge(x, p), x)
    ensures SameOn(f, x, y) ==> SameOn(f, Merge(x, p), Merge(y, p))
  {
  }

  lemma FieldsThen(p: Patch, q: Patch)
    ensures Fields(Then(p, q)) == Fields(p) + Fields(q)
  {
  }

  lemma SameOnAll(a: Issue, b: Issue)
    requires a.id == b.id && forall f :: f in FIELDS ==> SameOn(f, a, b)
    ensures a == b
  {
    assert SameOn(StatusField, a, b) && SameOn(ParentField, a, b);
    forall c: Column ensures (c in a.data <==> c in b.data) && (c in a.data ==> a.data[c] == b.data[c]) {
      assert SameOn(Col(c), a, b);
    }
    assert a.data == b.data;
  }

  /** Another value for one field, the rest unchanged. */
  function Altered(i: Issue, f: Field): Issue {
    match f
    case StatusField => i.(status := if i.status == Todo then Done else Todo)
    case ParentField => i.(parent := if i.parent == None then Some("") else None)
    case Col(c) => i.(data := i.data[c := if c in i.data && i.data[c] == "" then "x" else ""])
  }

  lemma AlteredOnly(i: Issue, f: Field)
    ensures !SameOn(f, Altered(i, f), i)
    ensures forall g :: g != f ==> SameOn(g, Altered(i, f), i)
  {
  }

  /** A payload that carries every field. */
  ghost predicate Complete(p: Patch) {
    Fields(p) == FIELDS
  }

  /**
   * A complete payload repairs any stale copy, and only a complete one does: `x` merged with `p`
   * is the up-to-date issue for EVERY up-to-date issue that already reflects `p`.
   */
  lemma RepairsIffComplete(x: Issue, p: Patch)
    ensures Complete(p) <==> forall s: Issue :: s.id == x.id && Merge(s, p) == s ==> Merge(x, p) == s
  {
    if Complete(p) {
      forall s: Issue | s.id == x.id && Merge(s, p) == s ensures Merge(x, p) == s {
        forall f | f in FIELDS ensures SameOn(f, Merge(x, p), s) { MergeOn(f, x, s, p); }
        SameOnAll(Merge(x, p), s);
      }
    } else {
      var f :| f in FIELDS && f !in Fields(p);
      var s := StaleFor(x, p, f);
      assert s.id == x.id && Merge(s, p) == s && Merge(x, p) != s;
    }
  }

  /** An issue that reflects `p` and differs from `x` with `p` written over it, in a field `p` omits. */
  lemma StaleFor(x: Issue, p: Patch, f: Field) returns (s: Issue)
    requires f !in Fields(p)
    ensures s.id == x.id && Merge(s, p) == s && Merge(x, p) != s
  {
    s := Altered(Merge(x, p), f);
    AlteredOnly(Merge(x, p), f);
    MergeTwice(x, p);
    forall g | g in FIELDS ensures SameOn(g, Merge(s, p), s) {
      MergeOn(g, s, Merge(x, p), p);
    }
    SameOnAll(Merge(s, p), s);
  }
}
