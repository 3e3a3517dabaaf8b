/** The bounded recursive copy of a provider's JSON, which is also the check after the fact. */
module OwnedJson {
  import opened Wrappers
  import opened Json

  const MAX_DEPTH := 16
  const MAX_ITEMS := 1024

  /** The node count after copying a value, or None where depth or count exceed. */
  function Own(v: Json, depth: nat, count: nat): Option<nat> {
    if MAX_DEPTH < depth || MAX_ITEMS < count + 1 then None
    else match v
      case Array(items) => OwnItems(items, depth + 1, count + 1)
      case Object(fields) => OwnFields(fields, depth + 1, count + 1)
      case _ => Some(count + 1)
  }

  function OwnItems(items: Items, depth: nat, count: nat): Option<nat> {
    match items
    case NoItems => Some(count)
    case Items(init, last) =>
      var n := OwnItems(init, depth, count);
      if n.None? then None else Own(last, depth, n.value)
  }

  function OwnFields(fields: Fields, depth: nat, count: nat): Option<nat> {
    match fields
    case NoFields => Some(count)
    case Fields(init, _, last) =>
      var n := OwnFields(init, depth, count);
      if n.None? then None else Own(last, depth, n.value)
  }

  /** The copy counts every node once and succeeds exactly within both bounds. */
  lemma {:induction false} Owns(v: Json, depth: nat, count: nat)
    ensures Own(v, depth, count) == if depth + Depth(v) <= MAX_DEPTH
            && count + Nodes(v) <= MAX_ITEMS then Some(count + Nodes(v)) else None
  {
    match v
    case Array(items) => OwnsItems(items, depth + 1, count + 1);
    case Object(fields) => OwnsFields(fields, depth + 1, count + 1);
    case _ =>
  }

  lemma {:induction false} OwnsItems(items: Items, depth: nat, count: nat)
    requires 1 <= depth
    ensures OwnItems(items, depth, count)
            == if items.NoItems? || (depth - 1 + ItemDepth(items) <= MAX_DEPTH && count + ItemNodes(items) <= MAX_ITEMS)
               then Some(count + ItemNodes(items)) else None
  {
    if items.Items? {
      OwnsItems(items.init, depth, count);
      Owns(items.last, depth, count + ItemNodes(items.init));
    }
  }

  lemma {:induction false} OwnsFields(fields: Fields, depth: nat, count: nat)
    requires 1 <= depth
    ensures OwnFields(fields, depth, count)
            == if fields.NoFields?
              || (depth - 1 + FieldDepth(fields) <= MAX_DEPTH && count + FieldNodes(fields) <= MAX_ITEMS)
               then Some(count + FieldNodes(fields)) else None
  {
    if fields.Fields? {
      OwnsFields(fields.init, depth, count);
      Owns(fields.last, depth, count + FieldNodes(fields.init));
    }
  }
}
