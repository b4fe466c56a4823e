/** The bookkeeping of the items CRUD router: pagination arithmetic, the
    owner check, item creation, the field merge of PUT/PATCH and the
    availability toggle. Database access is outside the model: an item is
    an object whose fields the handlers assign. */
module Crud {
  import opened Common
  import Auth

  // ---------------------------------------------------------------------
  // Pagination (list_items)
  // ---------------------------------------------------------------------

  /** The number of items before page `page`; the query parameters are
      validated to `page >= 1` and `1 <= per_page <= 100`. */
  function Offset(page: int, perPage: int): (offset: int)
    requires page >= 1 && 1 <= perPage <= 100
    ensures offset >= 0
    ensures offset % perPage == 0 && offset / perPage == page - 1
  {
    OffsetDivides(page - 1, perPage);
    (page - 1) * perPage
  }

  lemma OffsetDivides(k: nat, perPage: int)
    requires perPage >= 1
    ensures k * perPage >= 0 && (k * perPage) % perPage == 0 && (k * perPage) / perPage == k
  {
    MulNonNegative(k, perPage);
    DivModUnique(k * perPage, perPage, k, 0);
  }

  lemma MulNonNegative(a: int, d: int)
    requires a >= 0 && d >= 0
    ensures a * d >= 0
  {
  }

  lemma MulSub(a: int, b: int, d: int)
    ensures a * d - b * d == (a - b) * d
  {
  }

  /** For a positive factor, a smaller number has a product at least one factor smaller. */
  lemma MulStrictlyLess(a: int, b: int, d: int)
    requires a < b && d >= 1
    ensures a * d + d <= b * d
  {
    MulNonNegative(b - a - 1, d);
    MulSub(b - a - 1, -1, d);
    MulSub(b, a, d);
  }

  /** Quotient and remainder are the only pair that decomposes `m`. */
  lemma DivModUnique(m: int, d: int, q: int, r: int)
    requires d >= 1 && 0 <= r < d && m == q * d + r
    ensures m / d == q && m % d == r
  {
    var q', r' := m / d, m % d;
    assert m == q' * d + r';
    if q' > q {
      MulStrictlyLess(q, q', d);
    } else if q' < q {
      MulStrictlyLess(q', q, d);
    }
  }

  /** `pages`: the ceiling of `total / per_page`, and zero for no items. */
  function PageCount(total: int, perPage: int): (pages: int)
    requires total >= 0 && perPage >= 1
    ensures pages >= 0
    ensures pages == 0 <==> total == 0
    ensures total > 0 ==> (pages - 1) * perPage < total <= pages * perPage
  {
    if total > 0 then
      var m := total + perPage - 1;
      assert m == (m / perPage) * perPage + m % perPage;
      assert (m / perPage - 1) * perPage == (m / perPage) * perPage - perPage;
      m / perPage
    else 0
  }

  /** Only one number satisfies the ceiling bounds, so the page count is the
      least number of pages holding `total` items. */
  lemma PageCountIsLeast(total: int, perPage: int, n: int)
    requires total > 0 && perPage >= 1
    requires (n - 1) * perPage < total <= n * perPage
    ensures n == PageCount(total, perPage)
  {
    var p := PageCount(total, perPage);
    MulSub(n, 1, perPage);
    MulSub(p, 1, perPage);
    if n < p {
      MulStrictlyLess(n, p, perPage);
    } else if n > p {
      MulStrictlyLess(p, n, perPage);
    }
  }

  /** Every page from 1 to `pages` starts inside the result set, and the page
      after the last one starts past it. */
  lemma PagesCoverTotal(total: int, perPage: int, page: int)
    requires total >= 0 && 1 <= perPage <= 100 && page >= 1
    ensures page <= PageCount(total, perPage) ==> Offset(page, perPage) < total
    ensures page > PageCount(total, perPage) ==> Offset(page, perPage) >= total
  {
    var pages := PageCount(total, perPage);
    if page < pages {
      MulStrictlyLess(page - 1, pages - 1, perPage);
      MulNonNegative(page - 1, perPage);
    } else if page > pages && total > 0 {
      MulStrictlyLess(pages - 1, page - 1, perPage);
      MulSub(pages, 1, perPage);
    }
  }

  // ---------------------------------------------------------------------
  // Items
  // ---------------------------------------------------------------------

  /** The stored fields of an item (`created_at`/`updated_at` are set by the database). */
  datatype ItemRecord = ItemRecord(id: int, name: string, description: Option<string>, price: real,
                                   isAvailable: bool, ownerId: int)

  /** `ItemCreate`: the fields a client supplies. */
  datatype ItemCreate = ItemCreate(name: string, description: Option<string>, price: real, isAvailable: bool)

  /** A field of a partial update: absent from the request, or given a value. */
  datatype Patch<T> = Unset | Set(value: T)

  /** `ItemUpdate`, remembering which fields the request set. */
  datatype ItemUpdate = ItemUpdate(name: Patch<string>, description: Patch<Option<string>>, price: Patch<real>,
                                   isAvailable: Patch<bool>)

  /** One `(field, value)` pair of `model_dump(exclude_unset=True)`. */
  datatype FieldValue = Name(name: string) | Description(description: Option<string>) | Price(price: real)
                      | IsAvailable(isAvailable: bool)

  function PatchField<T>(p: Patch<T>, field: T -> FieldValue): seq<FieldValue>
  {
    if p.Set? then [field(p.value)] else []
  }

  /** The request set the field of `f` to the value `f` carries. */
  predicate SetBy(u: ItemUpdate, f: FieldValue)
  {
    match f
    case Name(v) => u.name == Set(v)
    case Description(v) => u.description == Set(v)
    case Price(v) => u.price == Set(v)
    case IsAvailable(v) => u.isAvailable == Set(v)
  }

  /** `item_data.model_dump(exclude_unset=True).items()`: the set fields, in
      declaration order. */
  function UpdateData(u: ItemUpdate): seq<FieldValue>
  {
    PatchField(u.name, v => Name(v)) + PatchField(u.description, v => Description(v))
    + PatchField(u.price, v => Price(v)) + PatchField(u.isAvailable, v => IsAvailable(v))
  }

  /** The update lists each set field with its value, at most once each, and nothing unset. */
  lemma UpdateDataFields(u: ItemUpdate)
    ensures |UpdateData(u)| <= 4
    ensures u.name.Set? ==> Name(u.name.value) in UpdateData(u)
    ensures u.description.Set? ==> Description(u.description.value) in UpdateData(u)
    ensures u.price.Set? ==> Price(u.price.value) in UpdateData(u)
    ensures u.isAvailable.Set? ==> IsAvailable(u.isAvailable.value) in UpdateData(u)
    ensures forall i :: 0 <= i < |UpdateData(u)| ==> SetBy(u, UpdateData(u)[i])
  {
    var a := PatchField(u.name, v => Name(v));
    var b := PatchField(u.description, v => Description(v));
    var c := PatchField(u.price, v => Price(v));
    var d := PatchField(u.isAvailable, v => IsAvailable(v));
    var f := a + b + c + d;
    assert f == UpdateData(u);
    if u.name.Set? { assert f[0] == Name(u.name.value); }
    if u.description.Set? { assert f[|a|] == Description(u.description.value); }
    if u.price.Set? { assert f[|a| + |b|] == Price(u.price.value); }
    if u.isAvailable.Set? { assert f[|a| + |b| + |c|] == IsAvailable(u.isAvailable.value); }
    forall i | 0 <= i < |f| ensures SetBy(u, f[i]) {
      if i < |a| {
        assert f[i] == a[i];
      } else if i < |a| + |b| {
        assert f[i] == b[i - |a|];
      } else if i < |a| + |b| + |c| {
        assert f[i] == c[i - |a| - |b|];
      } else {
        assert f[i] == d[i - |a| - |b| - |c|];
      }
    }
  }

  /** `setattr(item, field, value)` on the record. */
  function Assign(r: ItemRecord, f: FieldValue): ItemRecord
  {
    match f
    case Name(v) => r.(name := v)
    case Description(v) => r.(description := v)
    case Price(v) => r.(price := v)
    case IsAvailable(v) => r.(isAvailable := v)
  }

  /** The update loop, one assignment after another. */
  function AssignAll(r: ItemRecord, fields: seq<FieldValue>): ItemRecord
    decreases |fields|
  {
    if fields == [] then r else Assign(AssignAll(r, fields[..|fields| - 1]), fields[|fields| - 1])
  }

  function PatchOr<T>(p: Patch<T>, current: T): T
  {
    if p.Set? then p.value else current
  }

  /** The intended meaning of an update, field by field: a set field takes the
      new value, every other field keeps its old one. */
  function Merged(r: ItemRecord, u: ItemUpdate): (m: ItemRecord)
    ensures m.id == r.id && m.ownerId == r.ownerId
  {
    ItemRecord(r.id, PatchOr(u.name, r.name), PatchOr(u.description, r.description), PatchOr(u.price, r.price),
               PatchOr(u.isAvailable, r.isAvailable), r.ownerId)
  }

  lemma {:induction false} AssignAllAppend(r: ItemRecord, fields: seq<FieldValue>, more: seq<FieldValue>)
    ensures AssignAll(r, fields + more) == AssignAll(AssignAll(r, fields), more)
    decreases |more|
  {
    if more == [] {
      assert fields + more == fields;
    } else {
      var n := |more| - 1;
      assert (fields + more)[..|fields + more| - 1] == fields + more[..n];
      AssignAllAppend(r, fields, more[..n]);
    }
  }

  lemma AssignPatch<T>(r: ItemRecord, p: Patch<T>, field: T -> FieldValue)
    ensures AssignAll(r, PatchField(p, field)) == if p.Set? then Assign(r, field(p.value)) else r
  {
    if p.Set? {
      assert PatchField(p, field)[..0] == [];
    }
  }

  /** Running the update loop over the set fields is the field-by-field merge. */
  lemma {:induction false} AssignAllUpdateData(r: ItemRecord, u: ItemUpdate)
    ensures AssignAll(r, UpdateData(u)) == Merged(r, u)
  {
    var a := PatchField(u.name, v => Name(v));
    var b := PatchField(u.description, v => Description(v));
    var c := PatchField(u.price, v => Price(v));
    var d := PatchField(u.isAvailable, v => IsAvailable(v));
    assert UpdateData(u) == a + b + c + d;
    AssignAllAppend(r, a + b + c, d);
    AssignAllAppend(r, a + b, c);
    AssignAllAppend(r, a, b);
    AssignPatch(r, u.name, v => Name(v));
    var r1 := AssignAll(r, a);
    AssignPatch(r1, u.description, v => Description(v));
    var r2 := AssignAll(r1, b);
    AssignPatch(r2, u.price, v => Price(v));
    var r3 := AssignAll(r2, c);
    AssignPatch(r3, u.isAvailable, v => IsAvailable(v));
  }

  /** An update changes exactly the fields it sets (to the given values) and nothing else. */
  lemma MergedChangesOnlySetFields(r: ItemRecord, u: ItemUpdate)
    ensures var m := Merged(r, u);
      && (u.name.Set? ==> m.name == u.name.value) && (u.name.Unset? ==> m.name == r.name)
      && (u.description.Set? ==> m.description == u.description.value)
      && (u.description.Unset? ==> m.description == r.description)
      && (u.price.Set? ==> m.price == u.price.value) && (u.price.Unset? ==> m.price == r.price)
      && (u.isAvailable.Set? ==> m.isAvailable == u.isAvailable.value)
      && (u.isAvailable.Unset? ==> m.isAvailable == r.isAvailable)
      && m.id == r.id && m.ownerId == r.ownerId
  {
  }

  /** An empty request body changes nothing, and applying the same update twice
      is applying it once. */
  lemma MergedLaws(r: ItemRecord, u: ItemUpdate)
    ensures Merged(r, ItemUpdate(Unset, Unset, Unset, Unset)) == r
    ensures Merged(Merged(r, u), u) == Merged(r, u)
  {
  }

  /** A stored item. */
  class Item {
    var id: int
    var name: string
    var description: Option<string>
    var price: real
    var isAvailable: bool
    var ownerId: int

    function Record(): ItemRecord
      reads this
    {
      ItemRecord(id, name, description, price, isAvailable, ownerId)
    }

    /** `Item(**item_data.model_dump(), owner_id=...)`, with the id the database assigns. */
    constructor (id: int, data: ItemCreate, ownerId: int)
      ensures Record() == ItemRecord(id, data.name, data.description, data.price, data.isAvailable, ownerId)
    {
      this.id := id;
      name := data.name;
      description := data.description;
      price := data.price;
      isAvailable := data.isAvailable;
      this.ownerId := ownerId;
    }

    /** `setattr(item, field, value)`. */
    method SetField(f: FieldValue)
      modifies this
      ensures Record() == Assign(old(Record()), f)
    {
      match f
      case Name(v) => name := v;
      case Description(v) => description := v;
      case Price(v) => price := v;
      case IsAvailable(v) => isAvailable := v;
    }
  }

  /** `verify_item_owner`: only the owner, with no exception for admins. */
  function VerifyItemOwner(item: ItemRecord, user: Auth.User): (r: Outcome<HttpError>)
    ensures r.Fail? <==> item.ownerId != user.id
    ensures r.Fail? ==> r.error == HttpError(403, "Not authorized to access this item", map[])
  {
    if item.ownerId != user.id then Fail(HttpError(403, "Not authorized to access this item", map[])) else Pass
  }

  /** The item check is stricter than `verify_resource_owner`: whoever passes it
      passes that one too, and an admin who is not the owner passes only that one. */
  lemma ItemOwnerStricterThanResourceOwner(item: ItemRecord, user: Auth.User)
    ensures VerifyItemOwner(item, user).Pass? ==> Auth.VerifyResourceOwner(item.ownerId, user).Ok?
    ensures user.role == Auth.Admin && user.id != item.ownerId ==>
      VerifyItemOwner(item, user).Fail? && Auth.VerifyResourceOwner(item.ownerId, user).Ok?
  {
  }

  /** `create_item`: the new item belongs to the current user. */
  method CreateItem(data: ItemCreate, currentUser: Auth.User, id: int) returns (item: Item)
    ensures fresh(item)
    ensures item.Record() == ItemRecord(id, data.name, data.description, data.price, data.isAvailable, currentUser.id)
  {
    item := new Item(id, data, currentUser.id);
  }

  /** `update_item` (PUT) and `partial_update_item` (PATCH), whose bodies are
      the same: the owner check, then one assignment per set field. */
  method UpdateItem(data: ItemUpdate, item: Item, currentUser: Auth.User) returns (r: Outcome<HttpError>)
    modifies item
    ensures r == VerifyItemOwner(old(item.Record()), currentUser)
    ensures r.Fail? ==> item.Record() == old(item.Record())
    ensures r.Pass? ==> item.Record() == Merged(old(item.Record()), data)
  {
    r := VerifyItemOwner(item.Record(), currentUser);
    if r.Fail? {
      return;
    }
    var updateData := UpdateData(data);
    var i := 0;
    while i < |updateData|
      invariant 0 <= i <= |updateData|
      invariant item.Record() == AssignAll(old(item.Record()), updateData[..i])
    {
      item.SetField(updateData[i]);
      assert updateData[..i + 1][..i] == updateData[..i];
      i := i + 1;
    }
    assert updateData[..i] == updateData;
    AssignAllUpdateData(old(item.Record()), data);
  }

  /** The availability toggle on the record: it flips `is_available` and nothing else. */
  function Toggled(item: ItemRecord): (t: ItemRecord)
    ensures t.isAvailable == !item.isAvailable
    ensures t.(isAvailable := item.isAvailable) == item
  {
    item.(isAvailable := !item.isAvailable)
  }

  /** Toggling twice restores the item. */
  lemma ToggledTwice(item: ItemRecord)
    ensures Toggled(Toggled(item)) == item
  {
  }

  /** `toggle_item_availability`: the owner check, then the flip. */
  method ToggleItemAvailability(item: Item, currentUser: Auth.User) returns (r: Outcome<HttpError>)
    modifies item
    ensures r == VerifyItemOwner(old(item.Record()), currentUser)
    ensures r.Fail? ==> item.Record() == old(item.Record())
    ensures r.Pass? ==> item.Record() == Toggled(old(item.Record()))
  {
    r := VerifyItemOwner(item.Record(), currentUser);
    if r.Pass? {
      item.isAvailable := !item.isAvailable;
    }
  }
}
