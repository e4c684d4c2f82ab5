/**
 * The rows of content/models.py (Project, Task, Report). Each row keeps its
 * columns in a dict; the ownership column holds a reference to a user.
 */
module ContentModels {
  import opened Wrappers
  import opened Fields
  import opened Models

  datatype ContentKind = Projects | Tasks | Reports

  datatype Content = Content(kind: ContentKind, fields: Record)

  type Table = map<Id, Content>

  /** `getattr(obj, name)`; `None` where Python raises AttributeError. */
  function Attr(obj: Content, name: string): (v: Option<Value>)
    ensures v.Some? <==> name in obj.fields
    ensures v.Some? ==> v.value == obj.fields[name]
  {
    if name in obj.fields then Some(obj.fields[name]) else None
  }

  /** The row's `field` column refers to the user with this email. */
  predicate HeldBy(obj: Content, field: string, email: Email) {
    field in obj.fields && obj.fields[field] == UserRef(email)
  }

  /** The foreign-key column that ties each kind of row to its user. */
  function OwnershipField(kind: ContentKind): string {
    match kind
    case Projects => "owner"
    case Tasks => "assignee"
    case Reports => "author"
  }

  /** Every row of the table is of the viewset's kind and refers to a user in its ownership column. */
  predicate WellFormed(kind: ContentKind, table: Table) {
    forall id :: id in table ==>
      && table[id].kind == kind
      && OwnershipField(kind) in table[id].fields
      && table[id].fields[OwnershipField(kind)].UserRef?
  }
}
