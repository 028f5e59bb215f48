/** The organisational hierarchy of backend/src/services/entityService.ts:
    entities point to their parent, and the service creates, reads as a
    bounded tree, partially updates and deletes them. */
module Entities {
  import opened Common

  /** A row of the entities table (timestamps left out). */
  datatype Entity = Entity(
    id: string, name: string, entityType: string, parentId: Option<string>,
    address: Option<string>, phone: Option<string>, email: Option<string>)

  /** An entity with its `children` field: absent (not loaded) or a list. */
  datatype Node = Node(entity: Entity, children: Option<seq<Node>>)

  const NotFound := "Entité non trouvée"
  const HasChildren := "Impossible de supprimer une entité avec des enfants"
  /** What mapping the missing row of an UPDATE that matched nothing raises. */
  const UpdateMissingRow := "Cannot read properties of undefined (reading 'id')"

  /** `value || null` for an optional string. */
  function OrNull(s: Option<string>): (r: Option<string>)
    ensures r.None? <==> !Truthy(s)
    ensures r.Some? ==> r == s
  {
    if Truthy(s) then s else None
  }

  // ---------------------------------------------------------------- queries

  /** Position of the row with the given id. */
  function IndexOf(rows: seq<Entity>, id: string): (r: Option<nat>)
    ensures r.Some? ==> r.value < |rows| && rows[r.value].id == id
    ensures r.None? ==> forall i :: 0 <= i < |rows| ==> rows[i].id != id
  {
    if rows == [] then None
    else if rows[|rows| - 1].id == id then Some(|rows| - 1)
    else IndexOf(rows[..|rows| - 1], id)
  }

  /** `WHERE parent_id = $1`, in table order. */
  function ChildRows(rows: seq<Entity>, parent: string): (r: seq<Entity>)
    ensures forall e :: e in r <==> e in rows && e.parentId == Some(parent)
  {
    if rows == [] then []
    else
      var rest := ChildRows(rows[1..], parent);
      assert forall e :: e in rows[1..] ==> e in rows;
      assert forall e :: e in rows ==> e == rows[0] || e in rows[1..];
      if rows[0].parentId == Some(parent) then [rows[0]] + rest else rest
  }

  predicate NameLe(a: Entity, b: Entity) {
    StrLe(a.name, b.name)
  }

  lemma NameLeTotal()
    ensures Total(NameLe)
  {
    forall a: Entity, b: Entity ensures NameLe(a, b) || NameLe(b, a) {
      StrLeTotal(a.name, b.name);
    }
  }

  /** getChildren: the children of `parent`, ordered by name. */
  function Children(rows: seq<Entity>, parent: string): seq<Entity> {
    SortBy(ChildRows(rows, parent), NameLe)
  }

  /** getChildren returns exactly the entities whose parent is `parent`, each
      once, ordered by name. */
  lemma ChildrenExactly(rows: seq<Entity>, parent: string)
    ensures multiset(Children(rows, parent)) == multiset(ChildRows(rows, parent))
    ensures forall e :: e in Children(rows, parent) <==> e in rows && e.parentId == Some(parent)
    ensures Sorted(Children(rows, parent), NameLe)
  {
    NameLeTotal();
    SortBySorted(ChildRows(rows, parent), NameLe);
    SameElements(Children(rows, parent), ChildRows(rows, parent));
  }

  /** Entities as nodes whose children are not loaded. */
  function Leaves(es: seq<Entity>): (ns: seq<Node>)
    ensures |ns| == |es|
    ensures forall i :: 0 <= i < |es| ==> ns[i] == Node(es[i], None)
  {
    seq(|es|, i requires 0 <= i < |es| => Node(es[i], None))
  }

  /** The entity with its descendants loaded `depth` levels down; the nodes
      at that level are left without a children field. */
  function Expand(rows: seq<Entity>, e: Entity, depth: nat): (n: Node)
    ensures n.entity == e
    ensures n.children.None? <==> depth == 0
    decreases depth, 0
  {
    if depth == 0 then Node(e, None)
    else Node(e, Some(ExpandEach(rows, Children(rows, e.id), depth - 1)))
  }

  function ExpandEach(rows: seq<Entity>, es: seq<Entity>, depth: nat): (ns: seq<Node>)
    ensures |ns| == |es|
    decreases depth, 1
  {
    seq(|es|, k requires 0 <= k < |es| => Expand(rows, es[k], depth))
  }

  /** One level down: the entity with its children attached, unloaded. */
  lemma ExpandOneLevel(rows: seq<Entity>, e: Entity)
    ensures Expand(rows, e, 1) == Node(e, Some(Leaves(Children(rows, e.id))))
  {
    assert ExpandEach(rows, Children(rows, e.id), 0) == Leaves(Children(rows, e.id));
  }

  /** The children lookup getChildren performs, as a function of the entity. */
  function ChildrenOf(rows: seq<Entity>): Entity -> seq<Entity> {
    (e: Entity) => Children(rows, e.id)
  }

  /** Each entity with the children `kids` gives it attached, unloaded. */
  function Attach(es: seq<Entity>, kids: Entity -> seq<Entity>): (ns: seq<Node>)
    ensures |ns| == |es|
  {
    seq(|es|, k requires 0 <= k < |es| => Node(es[k], Some(Leaves(kids(es[k])))))
  }

  /** Two levels down: the children of the entity, each with its own
      children attached. */
  lemma ExpandTwoLevels(rows: seq<Entity>, e: Entity)
    ensures Expand(rows, e, 2) == Node(e, Some(Attach(Children(rows, e.id), ChildrenOf(rows))))
  {
    var kids := Children(rows, e.id);
    forall j | 0 <= j < |kids|
      ensures ExpandEach(rows, kids, 1)[j] == Attach(kids, ChildrenOf(rows))[j]
    {
      ExpandOneLevel(rows, kids[j]);
    }
    assert ExpandEach(rows, kids, 1) == Attach(kids, ChildrenOf(rows));
  }

  /** Each entity two levels down: its children, as the lookup `kids`
      gives them, each with its own children attached. */
  function AttachTwice(es: seq<Entity>, kids: Entity -> seq<Entity>): (ns: seq<Node>)
    ensures |ns| == |es|
  {
    seq(|es|, k requires 0 <= k < |es| => Node(es[k], Some(Attach(kids(es[k]), kids))))
  }

  /** Three levels down: the children of the entity, each two levels down. */
  lemma ExpandThreeLevels(rows: seq<Entity>, e: Entity)
    ensures Expand(rows, e, 3) == Node(e, Some(AttachTwice(Children(rows, e.id), ChildrenOf(rows))))
  {
    var kids := Children(rows, e.id);
    forall k | 0 <= k < |kids|
      ensures ExpandEach(rows, kids, 2)[k] == AttachTwice(kids, ChildrenOf(rows))[k]
    {
      ExpandTwoLevels(rows, kids[k]);
    }
    assert ExpandEach(rows, kids, 2) == AttachTwice(kids, ChildrenOf(rows));
  }

  /** The inner loop of getEntityTree: each grandchild with the children
      the lookup `kids` gives it attached. */
  method LoadGrandchildren(grand: seq<Entity>, kids: Entity -> seq<Entity>) returns (level: seq<Node>)
    ensures level == Attach(grand, kids)
  {
    level := [];
    for j := 0 to |grand|
      invariant |level| == j
      invariant forall m :: 0 <= m < j ==> level[m] == Node(grand[m], Some(Leaves(kids(grand[m]))))
    {
      level := level + [Node(grand[j], Some(Leaves(kids(grand[j]))))];
    }
  }

  /** The outer loop of getEntityTree: each unloaded child node replaced by
      the child two levels down. */
  method LoadChildren(children: seq<Node>, kids: Entity -> seq<Entity>) returns (level: seq<Node>)
    ensures |level| == |children|
    ensures forall m :: 0 <= m < |children| ==>
      level[m] == Node(children[m].entity, Some(Attach(kids(children[m].entity), kids)))
  {
    level := [];
    for i := 0 to |children|
      invariant |level| == i
      invariant forall m :: 0 <= m < i ==>
        level[m] == Node(children[m].entity, Some(Attach(kids(children[m].entity), kids)))
    {
      var grand := kids(children[i].entity);
      var below := LoadGrandchildren(grand, kids);
      level := level + [Node(children[i].entity, Some(below))];
    }
  }

  /** Loading the unloaded nodes of `es` two levels down gives `es` two
      levels down. */
  lemma LoadedTwice(es: seq<Entity>, kids: Entity -> seq<Entity>, level: seq<Node>)
    requires |level| == |es|
    requires forall m :: 0 <= m < |es| ==>
      level[m] == Node(Leaves(es)[m].entity, Some(Attach(kids(Leaves(es)[m].entity), kids)))
    ensures level == AttachTwice(es, kids)
  {
  }

  /** Every node above level `depth` has its children loaded and every node
      at that level has not; every loaded child points to the node it hangs
      under. */
  predicate LoadedTo(n: Node, depth: nat)
    decreases depth
  {
    if depth == 0 then n.children.None?
    else
      && n.children.Some?
      && forall c :: c in n.children.value ==> c.entity.parentId == Some(n.entity.id) && LoadedTo(c, depth - 1)
  }

  /** The tree `getEntityTree` builds reaches exactly `depth` levels and
      holds only children under their parents. */
  lemma {:induction false} ExpandLoadsExactly(rows: seq<Entity>, e: Entity, depth: nat)
    ensures LoadedTo(Expand(rows, e, depth), depth)
    ensures Expand(rows, e, depth).entity == e
    decreases depth
  {
    if depth > 0 {
      var kids := Children(rows, e.id);
      var level := ExpandEach(rows, kids, depth - 1);
      ChildrenExactly(rows, e.id);
      forall i | 0 <= i < |level|
        ensures level[i].entity.parentId == Some(e.id) && LoadedTo(level[i], depth - 1)
      {
        assert kids[i] in kids;
        ExpandLoadsExactly(rows, kids[i], depth - 1);
      }
      assert Expand(rows, e, depth) == Node(e, Some(level));
    }
  }

  predicate TypeNameLe(a: Entity, b: Entity) {
    if a.entityType != b.entityType then StrLe(a.entityType, b.entityType) else StrLe(a.name, b.name)
  }

  lemma TypeNameLeTotal()
    ensures Total(TypeNameLe)
  {
    forall a: Entity, b: Entity ensures TypeNameLe(a, b) || TypeNameLe(b, a) {
      StrLeTotal(a.entityType, b.entityType);
      StrLeTotal(a.name, b.name);
    }
  }

  /** `WHERE type = $1`, in table order. */
  function RowsOfType(rows: seq<Entity>, t: string): (r: seq<Entity>)
    ensures forall e :: e in r <==> e in rows && e.entityType == t
  {
    if rows == [] then []
    else
      var rest := RowsOfType(rows[1..], t);
      assert forall e :: e in rows[1..] ==> e in rows;
      assert forall e :: e in rows ==> e == rows[0] || e in rows[1..];
      if rows[0].entityType == t then [rows[0]] + rest else rest
  }

  // ---------------------------------------------------------------- partial update

  /** The arguments of updateEntity: each left out, sent as null or given. */
  datatype UpdateRequest = UpdateRequest(
    name: Arg<string>, entityType: Arg<string>, parentId: Arg<string>,
    address: Arg<string>, phone: Arg<string>, email: Arg<string>)

  predicate TruthyArg(a: Arg<string>) {
    a.Given? && a.value != ""
  }

  /** The value a given-or-null argument stores. */
  function Stored(a: Arg<string>): Option<string> {
    if a.Given? then Some(a.value) else None
  }

  /** What updateEntity promises field by field: name and type change only
      for a truthy value; parent, address, phone and email change whenever
      the argument is not left out (an empty parent is stored as null); the
      id never changes. */
  function Updated(e: Entity, req: UpdateRequest): (r: Entity)
    ensures r.id == e.id
    ensures !TruthyArg(req.name) ==> r.name == e.name
    ensures !TruthyArg(req.entityType) ==> r.entityType == e.entityType
  {
    e.(
      name := if TruthyArg(req.name) then req.name.value else e.name,
      entityType := if TruthyArg(req.entityType) then req.entityType.value else e.entityType,
      parentId := if req.parentId.Absent? then e.parentId else OrNull(Stored(req.parentId)),
      address := if req.address.Absent? then e.address else Stored(req.address),
      phone := if req.phone.Absent? then e.phone else Stored(req.phone),
      email := if req.email.Absent? then e.email else Stored(req.email))
  }

  datatype Column = NameColumn | TypeColumn | ParentColumn | AddressColumn | PhoneColumn | EmailColumn

  /** One item of the SET list: `column = $n`, or `updated_at = NOW()`. */
  datatype SetItem = Assign(column: Column, placeholder: nat) | TouchUpdatedAt

  function SetColumn(e: Entity, c: Column, v: Option<string>): Entity {
    match c
    case NameColumn => e.(name := v.GetOr(e.name))
    case TypeColumn => e.(entityType := v.GetOr(e.entityType))
    case ParentColumn => e.(parentId := v)
    case AddressColumn => e.(address := v)
    case PhoneColumn => e.(phone := v)
    case EmailColumn => e.(email := v)
  }

  /** The column assignments of a SET list, each bound to the parameter its
      placeholder `$k` names. */
  function Bind(items: seq<SetItem>, params: seq<Option<string>>): (cs: seq<(Column, Option<string>)>)
    requires forall i :: 0 <= i < |items| ==> items[i].Assign? && 1 <= items[i].placeholder <= |params|
    ensures |cs| == |items|
  {
    seq(|items|, i requires 0 <= i < |items| => (items[i].column, params[items[i].placeholder - 1]))
  }

  /** Performs the bound assignments in order. */
  function Apply(e: Entity, cs: seq<(Column, Option<string>)>): Entity
    decreases |cs|
  {
    if cs == [] then e else Apply(SetColumn(e, cs[0].0, cs[0].1), cs[1..])
  }

  lemma {:induction false} ApplyAppend(e: Entity, a: seq<(Column, Option<string>)>, b: seq<(Column, Option<string>)>)
    ensures Apply(e, a + b) == Apply(Apply(e, a), b)
    decreases |a|
  {
    if a != [] {
      assert (a + b)[0] == a[0];
      assert (a + b)[1..] == a[1..] + b;
      assert Apply(e, a + b) == Apply(SetColumn(e, a[0].0, a[0].1), a[1..] + b);
      assert Apply(e, a) == Apply(SetColumn(e, a[0].0, a[0].1), a[1..]);
      ApplyAppend(SetColumn(e, a[0].0, a[0].1), a[1..], b);
    } else {
      assert a + b == b;
    }
  }

  /** The change of one column, when its argument asks for one. */
  function Part(c: Column, asked: bool, v: Option<string>): seq<(Column, Option<string>)> {
    if asked then [(c, v)] else []
  }

  /** The column changes a request asks for, in the order the SET list names them. */
  function Changes(req: UpdateRequest): seq<(Column, Option<string>)> {
    Part(NameColumn, TruthyArg(req.name), Stored(req.name))
    + Part(TypeColumn, TruthyArg(req.entityType), Stored(req.entityType))
    + Part(ParentColumn, !req.parentId.Absent?, OrNull(Stored(req.parentId)))
    + Part(AddressColumn, !req.address.Absent?, Stored(req.address))
    + Part(PhoneColumn, !req.phone.Absent?, Stored(req.phone))
    + Part(EmailColumn, !req.email.Absent?, Stored(req.email))
  }

  /** Performing the requested changes gives the field-by-field update. */
  lemma ApplyChanges(e: Entity, req: UpdateRequest)
    ensures Apply(e, Changes(req)) == Updated(e, req)
  {
    var n := Part(NameColumn, TruthyArg(req.name), Stored(req.name));
    var t := Part(TypeColumn, TruthyArg(req.entityType), Stored(req.entityType));
    var p := Part(ParentColumn, !req.parentId.Absent?, OrNull(Stored(req.parentId)));
    var a := Part(AddressColumn, !req.address.Absent?, Stored(req.address));
    var ph := Part(PhoneColumn, !req.phone.Absent?, Stored(req.phone));
    var em := Part(EmailColumn, !req.email.Absent?, Stored(req.email));
    ApplyAppend(e, n + t + p + a + ph, em);
    ApplyAppend(e, n + t + p + a, ph);
    ApplyAppend(e, n + t + p, a);
    ApplyAppend(e, n + t, p);
    ApplyAppend(e, n, t);
    var e1 := Apply(e, n);
    var e2 := Apply(e1, t);
    var e3 := Apply(e2, p);
    var e4 := Apply(e3, a);
    var e5 := Apply(e4, ph);
    ApplyPart(e, NameColumn, TruthyArg(req.name), Stored(req.name));
    ApplyPart(e1, TypeColumn, TruthyArg(req.entityType), Stored(req.entityType));
    ApplyPart(e2, ParentColumn, !req.parentId.Absent?, OrNull(Stored(req.parentId)));
    ApplyPart(e3, AddressColumn, !req.address.Absent?, Stored(req.address));
    ApplyPart(e4, PhoneColumn, !req.phone.Absent?, Stored(req.phone));
    ApplyPart(e5, EmailColumn, !req.email.Absent?, Stored(req.email));
  }

  /** A conditional push changes its one column, or nothing. */
  lemma ApplyPart(e: Entity, c: Column, asked: bool, v: Option<string>)
    ensures Apply(e, Part(c, asked, v)) == if asked then SetColumn(e, c, v) else e
  {
    if asked {
      assert Part(c, asked, v)[1..] == [];
    }
  }

  /** The SET items `column = $i` for changes 1, 2, ... in order. */
  function Placeholders(cs: seq<(Column, Option<string>)>): (items: seq<SetItem>)
    ensures |items| == |cs|
    ensures forall i :: 0 <= i < |cs| ==> items[i] == Assign(cs[i].0, i + 1)
  {
    seq(|cs|, i requires 0 <= i < |cs| => Assign(cs[i].0, i + 1))
  }

  /** The parameter values of the changes, in order. */
  function Values(cs: seq<(Column, Option<string>)>): (vs: seq<Option<string>>)
    ensures |vs| == |cs|
    ensures forall i :: 0 <= i < |cs| ==> vs[i] == cs[i].1
  {
    seq(|cs|, i requires 0 <= i < |cs| => cs[i].1)
  }

  /** A numbered SET list binds exactly its changes, whatever parameters follow. */
  lemma NumberedBinds(cs: seq<(Column, Option<string>)>, extra: seq<Option<string>>)
    ensures forall i :: 0 <= i < |cs| ==> Placeholders(cs)[i].Assign? && 1 <= Placeholders(cs)[i].placeholder <= |Values(cs) + extra|
    ensures Bind(Placeholders(cs), Values(cs) + extra) == cs
  {
  }

  /** One conditional push of updateEntity: when the argument is asked for,
      the column's assignment takes the next placeholder number and its
      value is added to the parameters. */
  method PushIfAsked(asked: bool, c: Column, v: Option<string>,
                     updates: seq<SetItem>, params: seq<Option<string>>, paramIndex: nat,
                     ghost cs: seq<(Column, Option<string>)>)
    returns (updates': seq<SetItem>, params': seq<Option<string>>, paramIndex': nat)
    requires updates == Placeholders(cs) && params == Values(cs) && paramIndex == |params| + 1
    ensures updates' == Placeholders(cs + Part(c, asked, v))
    ensures params' == Values(cs + Part(c, asked, v))
    ensures paramIndex' == |params'| + 1
  {
    updates', params', paramIndex' := updates, params, paramIndex;
    if asked {
      updates' := updates' + [Assign(c, paramIndex')];
      paramIndex' := paramIndex' + 1;
      params' := params' + [v];
      assert updates' == Placeholders(cs + [(c, v)]);
      assert params' == Values(cs + [(c, v)]);
    } else {
      assert cs + Part(c, asked, v) == cs;
    }
  }

  /** The six pushes, starting from empty lists, collect `Changes(req)`. */
  lemma ChangesFromEmpty(req: UpdateRequest)
    ensures [] + Part(NameColumn, TruthyArg(req.name), Stored(req.name))
      + Part(TypeColumn, TruthyArg(req.entityType), Stored(req.entityType))
      + Part(ParentColumn, !req.parentId.Absent?, OrNull(Stored(req.parentId)))
      + Part(AddressColumn, !req.address.Absent?, Stored(req.address))
      + Part(PhoneColumn, !req.phone.Absent?, Stored(req.phone))
      + Part(EmailColumn, !req.email.Absent?, Stored(req.email)) == Changes(req)
  {
    assert [] + Part(NameColumn, TruthyArg(req.name), Stored(req.name)) == Part(NameColumn, TruthyArg(req.name), Stored(req.name));
  }

  /** Builds the SET list and the parameter list as updateEntity does, with
      the running placeholder number `paramIndex`. The assignments bind
      exactly the requested changes, `updated_at` comes last, and the WHERE
      clause names the last placeholder, which holds the entity id. */
  method BuildUpdate(entityId: string, req: UpdateRequest)
    returns (updates: seq<SetItem>, params: seq<Option<string>>, paramIndex: nat)
    ensures |updates| == |params| == |Changes(req)| + 1
    ensures updates[|updates| - 1] == TouchUpdatedAt
    ensures paramIndex == |params| && params[paramIndex - 1] == Some(entityId)
    ensures forall i :: 0 <= i < |updates| - 1 ==> updates[i].Assign? && updates[i].placeholder == i + 1
    ensures Bind(updates[..|updates| - 1], params) == Changes(req)
  {
    ghost var cs: seq<(Column, Option<string>)> := [];
    updates, params, paramIndex := PushIfAsked(TruthyArg(req.name), NameColumn, Stored(req.name), [], [], 1, cs);
    cs := cs + Part(NameColumn, TruthyArg(req.name), Stored(req.name));
    updates, params, paramIndex := PushIfAsked(TruthyArg(req.entityType), TypeColumn, Stored(req.entityType), updates, params, paramIndex, cs);
    cs := cs + Part(TypeColumn, TruthyArg(req.entityType), Stored(req.entityType));
    updates, params, paramIndex := PushIfAsked(!req.parentId.Absent?, ParentColumn, OrNull(Stored(req.parentId)), updates, params, paramIndex, cs);
    cs := cs + Part(ParentColumn, !req.parentId.Absent?, OrNull(Stored(req.parentId)));
    updates, params, paramIndex := PushIfAsked(!req.address.Absent?, AddressColumn, Stored(req.address), updates, params, paramIndex, cs);
    cs := cs + Part(AddressColumn, !req.address.Absent?, Stored(req.address));
    updates, params, paramIndex := PushIfAsked(!req.phone.Absent?, PhoneColumn, Stored(req.phone), updates, params, paramIndex, cs);
    cs := cs + Part(PhoneColumn, !req.phone.Absent?, Stored(req.phone));
    updates, params, paramIndex := PushIfAsked(!req.email.Absent?, EmailColumn, Stored(req.email), updates, params, paramIndex, cs);
    cs := cs + Part(EmailColumn, !req.email.Absent?, Stored(req.email));
    ChangesFromEmpty(req);
    NumberedBinds(cs, [Some(entityId)]);
    var assignments := updates;
    updates := updates + [TouchUpdatedAt];
    params := params + [Some(entityId)];
    assert updates[..|updates| - 1] == assignments;
  }

  // ---------------------------------------------------------------- the table

  predicate UniqueIds(rows: seq<Entity>) {
    forall i, j :: 0 <= i < j < |rows| ==> rows[i].id != rows[j].id
  }

  /** The rows other than the one with the given id, in table order. */
  function Without(rows: seq<Entity>, id: string): (r: seq<Entity>)
    ensures forall e :: e in r <==> e in rows && e.id != id
  {
    if rows == [] then []
    else
      var rest := Without(rows[1..], id);
      assert forall e :: e in rows[1..] ==> e in rows;
      assert forall e :: e in rows ==> e == rows[0] || e in rows[1..];
      if rows[0].id == id then rest else [rows[0]] + rest
  }

  /** Deleting rows keeps the remaining ids unique. */
  lemma {:induction false} WithoutKeepsUniqueIds(rows: seq<Entity>, id: string)
    requires UniqueIds(rows)
    ensures UniqueIds(Without(rows, id))
  {
    if rows != [] {
      var rest := Without(rows[1..], id);
      assert UniqueIds(rows[1..]) by {
        forall i, j | 0 <= i < j < |rows[1..]| ensures rows[1..][i].id != rows[1..][j].id {
          assert rows[1..][i] == rows[i + 1] && rows[1..][j] == rows[j + 1];
        }
      }
      WithoutKeepsUniqueIds(rows[1..], id);
      if rows[0].id != id {
        forall e | e in rest ensures e.id != rows[0].id {
          var j :| 0 <= j < |rows[1..]| && rows[1..][j] == e;
          assert rows[j + 1] == e;
        }
        var r := [rows[0]] + rest;
        forall i, j | 0 <= i < j < |r| ensures r[i].id != r[j].id {
          assert r[j] == rest[j - 1] && r[j] in rest;
          if i > 0 {
            assert r[i] == rest[i - 1];
          }
        }
      }
    }
  }

  /** The entities table, updated in place. */
  class EntityStore {
    var rows: seq<Entity>

    ghost predicate Valid()
      reads this
    {
      UniqueIds(rows)
    }

    constructor ()
      ensures Valid() && rows == []
    {
      rows := [];
    }

    /** createEntity. The id is the one the database generates for the new row. */
    method CreateEntity(newId: string, name: string, entityType: string, parentId: Option<string>,
                        address: Option<string>, phone: Option<string>, email: Option<string>)
      returns (e: Entity)
      requires Valid()
      requires forall i :: 0 <= i < |rows| ==> rows[i].id != newId
      modifies this
      ensures Valid()
      ensures e == Entity(newId, name, entityType, OrNull(parentId), address, phone, email)
      ensures rows == old(rows) + [e]
    {
      e := Entity(newId, name, entityType, OrNull(parentId), address, phone, email);
      rows := rows + [e];
    }

    /** getChildren. */
    function GetChildren(parent: string): (r: seq<Entity>)
      reads this
      ensures forall e :: e in r <==> e in rows && e.parentId == Some(parent)
      ensures Sorted(r, NameLe)
    {
      ChildrenExactly(rows, parent);
      Children(rows, parent)
    }

    /** getEntityWithHierarchy: the entity with its direct children attached, or null. */
    function GetEntityWithHierarchy(id: string): (r: Option<Node>)
      reads this
      ensures r.None? <==> IndexOf(rows, id).None?
      ensures r.Some? ==> r.value == Node(rows[IndexOf(rows, id).value], Some(Leaves(Children(rows, id))))
    {
      match IndexOf(rows, id)
      case None => None
      case Some(i) => Some(Node(rows[i], Some(Leaves(Children(rows, id)))))
    }

    /** getEntityTree: the root and three levels of descendants, loaded
        child by child in nested loops. */
    method GetEntityTree(id: string) returns (r: Result<Node, string>)
      requires Valid()
      ensures IndexOf(rows, id).None? ==> r == Err(NotFound)
      ensures IndexOf(rows, id).Some? ==> r == Ok(Expand(rows, rows[IndexOf(rows, id).value], 3))
    {
      var found := GetEntityWithHierarchy(id);
      if found.None? {
        return Err(NotFound);
      }
      var root := found.value;
      var kids := root.children.value;
      var level1 := LoadChildren(kids, ChildrenOf(rows));
      LoadedTwice(Children(rows, id), ChildrenOf(rows), level1);
      assert root.entity.id == id;
      ExpandThreeLevels(rows, root.entity);
      r := Ok(Node(root.entity, Some(level1)));
    }

    /** updateEntity: builds the statement, then performs it on the row it
        names; an id that names no row fails after the UPDATE matched nothing. */
    method UpdateEntity(entityId: string, req: UpdateRequest) returns (r: Result<Entity, string>)
      requires Valid()
      modifies this
      ensures Valid()
      ensures IndexOf(old(rows), entityId).None? ==> r == Err(UpdateMissingRow) && rows == old(rows)
      ensures IndexOf(old(rows), entityId).Some? ==>
        var i := IndexOf(old(rows), entityId).value;
        rows == old(rows)[i := Updated(old(rows)[i], req)] && r == Ok(rows[i])
    {
      var updates, params, paramIndex := BuildUpdate(entityId, req);
      var target := IndexOf(rows, params[paramIndex - 1].value);
      if target.None? {
        return Err(UpdateMissingRow);
      }
      var i := target.value;
      var changed := Apply(rows[i], Bind(updates[..|updates| - 1], params));
      ApplyChanges(rows[i], req);
      rows := rows[i := changed];
      r := Ok(changed);
      assert forall k :: 0 <= k < |rows| ==> rows[k].id == old(rows)[k].id;
    }

    /** deleteEntity: refused while the entity has children; otherwise the
        row with that id, if any, is removed. */
    method DeleteEntity(entityId: string) returns (failure: Option<string>)
      requires Valid()
      modifies this
      ensures Valid()
      ensures Children(old(rows), entityId) != [] ==> failure == Some(HasChildren) && rows == old(rows)
      ensures Children(old(rows), entityId) == [] ==> failure.None? && rows == Without(old(rows), entityId)
    {
      var children := GetChildren(entityId);
      if |children| > 0 {
        return Some(HasChildren);
      }
      WithoutKeepsUniqueIds(rows, entityId);
      rows := Without(rows, entityId);
      failure := None;
    }

    /** getEntitiesByType: the entities of one type, ordered by name. */
    function GetEntitiesByType(t: string): (r: seq<Entity>)
      reads this
      ensures multiset(r) == multiset(RowsOfType(rows, t))
      ensures forall e :: e in r <==> e in rows && e.entityType == t
      ensures Sorted(r, NameLe)
    {
      NameLeTotal();
      SortBySorted(RowsOfType(rows, t), NameLe);
      var r := SortBy(RowsOfType(rows, t), NameLe);
      SameElements(r, RowsOfType(rows, t));
      r
    }

    /** getAllEntities: every entity, ordered by type and then name. */
    function GetAllEntities(): (r: seq<Entity>)
      reads this
      ensures multiset(r) == multiset(rows)
      ensures Sorted(r, TypeNameLe)
    {
      TypeNameLeTotal();
      SortBySorted(rows, TypeNameLe);
      SortBy(rows, TypeNameLe)
    }
  }

  /** Deleting an id no row has changes nothing. */
  lemma {:induction false} WithoutAbsent(rows: seq<Entity>, id: string)
    requires forall i :: 0 <= i < |rows| ==> rows[i].id != id
    ensures Without(rows, id) == rows
  {
    if rows != [] {
      WithoutAbsent(rows[1..], id);
    }
  }

  /** Deleting an existing id removes exactly one row, ids being unique. */
  lemma {:induction false} DeleteRemovesExactlyOne(rows: seq<Entity>, id: string)
    requires UniqueIds(rows)
    requires exists i :: 0 <= i < |rows| && rows[i].id == id
    ensures |Without(rows, id)| == |rows| - 1
  {
    if rows[0].id == id {
      WithoutAbsent(rows[1..], id);
    } else {
      var i :| 0 <= i < |rows| && rows[i].id == id;
      assert rows[1..][i - 1].id == id;
      DeleteRemovesExactlyOne(rows[1..], id);
    }
  }

  /** No cycle check: an entity may be made its own parent. */
  lemma SelfParentAccepted(e: Entity, name: Arg<string>)
    requires e.id != ""
    ensures Updated(e, UpdateRequest(name, Absent, Given(e.id), Absent, Absent, Absent)).parentId == Some(e.id)
  {
  }

  /** An empty or null parent argument clears the parent; leaving it out keeps it. */
  lemma ParentArgument(e: Entity)
    ensures Updated(e, UpdateRequest(Absent, Absent, Given(""), Absent, Absent, Absent)).parentId.None?
    ensures Updated(e, UpdateRequest(Absent, Absent, Null, Absent, Absent, Absent)).parentId.None?
    ensures Updated(e, UpdateRequest(Absent, Absent, Absent, Absent, Absent, Absent)) == e
  {
  }
}
