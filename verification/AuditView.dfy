/**
 * What the audit API shows of a stored snapshot: the public fields of its kind of entity, each of
 * the expected primitive type, and nothing else.
 */
module AuditView {
  import opened Types

  /** A parsed JSON value. */
  datatype Json = Null | Bool(b: bool) | Number(n: int) | Text(s: string)
                | Items(items: seq<Json>) | Object(fields: map<string, Json>)

  datatype FieldType = StringField | BoolField | NullableField

  datatype Result<+T> = Ok(value: T) | BadSnapshot

  predicate KnownKind(kind: string) {
    kind == "user" || kind == "asset" || kind == "work_order"
  }

  function StringFields(kind: string): seq<string> {
    if kind == "user" then ["name", "email", "role"]
    else if kind == "asset" then
      ["asset_code", "name", "category", "location", "status", "created_at", "updated_at"]
    else if kind == "work_order" then
      ["work_order_number", "asset_id", "title", "description", "priority", "status", "created_by",
       "created_at", "updated_at"]
    else []
  }

  /** The public fields of a kind of entity. */
  predicate Listed(kind: string, k: string) {
    || k == "id" || k in StringFields(kind)
    || (kind == "user" && (k == "is_active" || k == "password_changed"))
    || (kind == "work_order" && (k == "assigned_to" || k == "completed_at"))
  }

  function TypeOf(k: string): FieldType {
    if k == "is_active" || k == "password_changed" then BoolField
    else if k == "assigned_to" || k == "completed_at" then NullableField
    else StringField
  }

  predicate Fits(t: FieldType, v: Json) {
    match v
    case Null => t == NullableField
    case Bool(_) => t == BoolField
    case Text(_) => t != BoolField
    case _ => false
  }

  /** Every public field that a snapshot has is of its type. */
  ghost predicate WellTyped(kind: string, source: map<string, Json>) {
    forall k :: k in source && Listed(kind, k) ==> Fits(TypeOf(k), source[k])
  }

  /** The public part of a snapshot. */
  function Projection(kind: string, source: map<string, Json>): map<string, Json> {
    map k | k in source && Listed(kind, k) :: source[k]
  }

  method FieldsOf(kind: string) returns (fields: map<string, FieldType>)
    requires KnownKind(kind)
    ensures forall k :: k in fields <==> Listed(kind, k)
    ensures forall k :: k in fields ==> fields[k] == TypeOf(k)
  {
    fields := map["id" := StringField];
    var names := StringFields(kind);
    var i := 0;
    while i < |names|
      invariant 0 <= i <= |names|
      invariant forall k :: k in fields <==> k == "id" || k in names[..i]
      invariant forall k :: k in fields ==> fields[k] == StringField
    {
      fields := fields[names[i] := StringField];
      i := i + 1;
    }
    assert names[..i] == names;
    forall k | k in names ensures TypeOf(k) == StringField {
      StringFieldsAreStrings(kind, k);
    }
    if kind == "user" {
      fields := fields["is_active" := BoolField]["password_changed" := BoolField];
    } else if kind == "work_order" {
      fields := fields["assigned_to" := NullableField]["completed_at" := NullableField];
    }
  }

  lemma StringFieldsAreStrings(kind: string, k: string)
    requires k in StringFields(kind)
    ensures TypeOf(k) == StringField
  {
  }

  /** What a stored snapshot is shown as; a missing one stays missing. */
  ghost function Shown(kind: string, raw: Option<Json>): Result<Option<Json>> {
    if raw == None || raw == Some(Null) then Ok(None)
    else if raw.value.Object? && KnownKind(kind) && WellTyped(kind, raw.value.fields) then
      Ok(Some(Object(Projection(kind, raw.value.fields))))
    else BadSnapshot
  }

  /** The service's projection. It goes through the fields in no fixed order. */
  method Sanitize(kind: string, raw: Option<Json>) returns (r: Result<Option<Json>>)
    ensures r == Shown(kind, raw)
  {
    if raw == None || raw == Some(Null) {
      return Ok(None);
    }
    if !raw.value.Object? {
      return BadSnapshot;
    }
    var source := raw.value.fields;
    if !KnownKind(kind) {
      return BadSnapshot;
    }
    var fields := FieldsOf(kind);
    var todo := fields.Keys;
    var out := map[];
    while todo != {}
      invariant todo <= fields.Keys
      invariant forall k :: k in out <==> k in source && k in fields && k !in todo
      invariant forall k :: k in out ==> out[k] == source[k] && Fits(fields[k], source[k])
      decreases todo
    {
      var k :| k in todo;
      todo := todo - {k};
      if k in source {
        var v := source[k];
        if v == Null {
          if fields[k] != NullableField {
            return BadSnapshot;
          }
        } else if fields[k] == BoolField {
          if !v.Bool? {
            return BadSnapshot;
          }
        } else if !v.Text? {
          return BadSnapshot;
        }
        out := out[k := v];
      }
    }
    assert out == Projection(kind, source);
    return Ok(Some(Object(out)));
  }

  /** Whatever is accepted shows listed fields only, unchanged, and is shown alike a second time. */
  lemma ShownIsPublic(kind: string, raw: Option<Json>)
    requires Shown(kind, raw).Ok?
    ensures Shown(kind, Shown(kind, raw).value) == Shown(kind, raw)
    ensures Shown(kind, raw).value.Some? ==>
              && Shown(kind, raw).value.value.Object?
              && forall k :: k in Shown(kind, raw).value.value.fields <==>
                   k in raw.value.fields && Listed(kind, k)
  {
    if raw.Some? && raw.value != Null {
      var source := raw.value.fields;
      var shown := Projection(kind, source);
      assert Projection(kind, shown) == shown;
    }
  }

  /** Fields that are not listed change nothing, whatever is in them. */
  lemma UnlistedFieldsIgnored(kind: string, source: map<string, Json>, k: string, v: Json)
    requires !Listed(kind, k)
    ensures Shown(kind, Some(Object(source[k := v]))) == Shown(kind, Some(Object(source)))
  {
    var more := source[k := v];
    assert Projection(kind, more) == Projection(kind, source);
    assert WellTyped(kind, more) <==> WellTyped(kind, source) by {
      if WellTyped(kind, more) {
        forall l | l in source && Listed(kind, l) ensures Fits(TypeOf(l), source[l]) {
          assert more[l] == source[l];
        }
      }
    }
  }

  // ---- The public fields, by name

  predicate AllTexts(source: map<string, Json>, keys: set<string>) {
    forall k :: k in keys && k in source ==> source[k].Text?
  }

  predicate AllBools(source: map<string, Json>, keys: set<string>) {
    forall k :: k in keys && k in source ==> source[k].Bool?
  }

  predicate AllTextsOrNull(source: map<string, Json>, keys: set<string>) {
    forall k :: k in keys && k in source ==> source[k].Text? || source[k] == Null
  }

  const USER_TEXTS := {"id", "name", "email", "role"}
  const USER_BOOLS := {"is_active", "password_changed"}
  const ASSET_TEXTS :=
    {"id", "asset_code", "name", "category", "location", "status", "created_at", "updated_at"}
  const ORDER_TEXTS :=
    {"id", "work_order_number", "asset_id", "title", "description", "priority", "status", "created_by",
     "created_at", "updated_at"}
  const ORDER_NULLABLES := {"assigned_to", "completed_at"}

  function Only(source: map<string, Json>, keys: set<string>): map<string, Json> {
    map k | k in source && k in keys :: source[k]
  }

  /** Of a user six fields are shown, and no other whatever: a stored hash stays where it is. */
  lemma UserShownByName(source: map<string, Json>)
    ensures Shown("user", Some(Object(source))) ==
            if AllTexts(source, USER_TEXTS) && AllBools(source, USER_BOOLS) then
              Ok(Some(Object(Only(source, USER_TEXTS + USER_BOOLS))))
            else BadSnapshot
  {
    UserListed();
    ByName("user", source, USER_TEXTS, USER_BOOLS, {});
    assert USER_TEXTS + USER_BOOLS + {} == USER_TEXTS + USER_BOOLS;
    hide Shown, Only;
  }

  lemma AssetShownByName(source: map<string, Json>)
    ensures Shown("asset", Some(Object(source))) ==
            if AllTexts(source, ASSET_TEXTS) then Ok(Some(Object(Only(source, ASSET_TEXTS)))) else BadSnapshot
  {
    AssetListed();
    ByName("asset", source, ASSET_TEXTS, {}, {});
    assert ASSET_TEXTS + {} + {} == ASSET_TEXTS;
  }

  lemma OrderShownByName(source: map<string, Json>)
    ensures Shown("work_order", Some(Object(source))) ==
            if AllTexts(source, ORDER_TEXTS) && AllTextsOrNull(source, ORDER_NULLABLES) then
              Ok(Some(Object(Only(source, ORDER_TEXTS + ORDER_NULLABLES))))
            else BadSnapshot
  {
    OrderListed();
    ByName("work_order", source, ORDER_TEXTS, {}, ORDER_NULLABLES);
    assert ORDER_TEXTS + {} + ORDER_NULLABLES == ORDER_TEXTS + ORDER_NULLABLES;
  }

  /** No other kind and nothing but an object is accepted; nothing stored is nothing shown. */
  lemma OthersShown(kind: string, raw: Option<Json>)
    ensures raw in {None, Some(Null)} ==> Shown(kind, raw) == Ok(None)
    ensures raw !in {None, Some(Null)} && (!raw.value.Object? || kind !in {"user", "asset", "work_order"}) ==>
            Shown(kind, raw) == BadSnapshot
  {
  }

  lemma UserListed()
    ensures forall k :: Listed("user", k) <==> k in USER_TEXTS || k in USER_BOOLS
    ensures forall k :: k in USER_TEXTS ==> TypeOf(k) == StringField
    ensures forall k :: k in USER_BOOLS ==> TypeOf(k) == BoolField
  {
  }

  lemma AssetKey(k: string)
    ensures Listed("asset", k) <==> k in ASSET_TEXTS
  {
    hide TypeOf;
  }

  lemma AssetListed()
    ensures forall k :: Listed("asset", k) <==> k in ASSET_TEXTS
    ensures forall k :: k in ASSET_TEXTS ==> TypeOf(k) == StringField
  {
    forall k ensures Listed("asset", k) <==> k in ASSET_TEXTS { AssetKey(k); }
    hide Listed;
  }

  lemma OrderKey(k: string)
    ensures Listed("work_order", k) <==> k in ORDER_TEXTS || k in ORDER_NULLABLES
  {
    hide TypeOf;
  }

  lemma OrderTypes(k: string)
    ensures k in ORDER_TEXTS ==> TypeOf(k) == StringField
    ensures k in ORDER_NULLABLES ==> TypeOf(k) == NullableField
  {
    hide Listed, StringFields;
  }

  lemma OrderListed()
    ensures forall k :: Listed("work_order", k) <==> k in ORDER_TEXTS || k in ORDER_NULLABLES
    ensures forall k :: k in ORDER_TEXTS ==> TypeOf(k) == StringField
    ensures forall k :: k in ORDER_NULLABLES ==> TypeOf(k) == NullableField
  {
    forall k
      ensures Listed("work_order", k) <==> k in ORDER_TEXTS || k in ORDER_NULLABLES
      ensures k in ORDER_TEXTS ==> TypeOf(k) == StringField
      ensures k in ORDER_NULLABLES ==> TypeOf(k) == NullableField
    {
      OrderKey(k);
      OrderTypes(k);
      hide Listed, TypeOf;
    }
  }

  lemma ByName(kind: string, source: map<string, Json>, texts: set<string>, bools: set<string>, nullables: set<string>)
    requires KnownKind(kind)
    requires forall k :: Listed(kind, k) <==> k in texts || k in bools || k in nullables
    requires forall k :: k in texts ==> TypeOf(k) == StringField
    requires forall k :: k in bools ==> TypeOf(k) == BoolField
    requires forall k :: k in nullables ==> TypeOf(k) == NullableField
    ensures Shown(kind, Some(Object(source))) ==
            if AllTexts(source, texts) && AllBools(source, bools) && AllTextsOrNull(source, nullables) then
              Ok(Some(Object(Only(source, texts + bools + nullables))))
            else BadSnapshot
  {
    hide Listed, TypeOf, KnownKind;
    assert Projection(kind, source) == Only(source, texts + bools + nullables);
    var typed := AllTexts(source, texts) && AllBools(source, bools) && AllTextsOrNull(source, nullables);
    if WellTyped(kind, source) {
      assert forall k :: k in source && (k in texts || k in bools || k in nullables) ==> Fits(TypeOf(k), source[k]);
      assert typed;
    }
    if typed {
      assert WellTyped(kind, source);
    }
  }

  // ---- The snapshots that the services write

  /** How ids and times are written is up to the libraries. */
  datatype Codec = Codec(uuid: Uuid -> string, time: Time -> string)

  function KindText(kind: Kind): string {
    match kind
    case UserEntity => "user"
    case AssetEntity => "asset"
    case OrderEntity => "work_order"
  }

  function RoleText(role: Role): string {
    match role
    case Admin => "ADMIN"
    case Manager => "MANAGER"
    case Technician => "TECHNICIAN"
  }

  function AssetStatusText(s: AssetStatus): string {
    match s
    case ActiveAsset => "ACTIVE"
    case InactiveAsset => "INACTIVE"
    case MaintenanceAsset => "MAINTENANCE"
    case RetiredAsset => "RETIRED"
  }

  function PriorityText(p: Priority): string {
    match p
    case Low => "LOW"
    case Medium => "MEDIUM"
    case High => "HIGH"
    case Critical => "CRITICAL"
  }

  function StatusText(s: Status): string {
    match s
    case Open => "OPEN"
    case Assigned => "ASSIGNED"
    case InProgress => "IN_PROGRESS"
    case Completed => "COMPLETED"
    case Cancelled => "CANCELLED"
  }

  function Optional(o: Option<nat>, text: nat -> string): Json {
    match o
    case None => Null
    case Some(n) => Text(text(n))
  }

  function Encoded(c: Codec, s: Snapshot): Json {
    match s
    case UserSnapshot(id, name, email, role, active, passwordChanged) =>
      var fields := map["id" := Text(c.uuid(id)), "name" := Text(name), "email" := Text(email),
                        "role" := Text(RoleText(role)), "is_active" := Bool(active)];
      Object(if passwordChanged then fields["password_changed" := Bool(true)] else fields)
    case AssetSnapshot(id, a) =>
      Object(map["id" := Text(c.uuid(id)), "asset_code" := Text(a.code), "name" := Text(a.name),
                 "category" := Text(a.category), "location" := Text(a.location),
                 "status" := Text(AssetStatusText(a.status)),
                 "created_at" := Text(c.time(a.created)), "updated_at" := Text(c.time(a.updated))])
    case OrderSnapshot(id, w) =>
      Object(map["id" := Text(c.uuid(id)), "work_order_number" := Text(w.number), "asset_id" := Text(c.uuid(w.asset)),
                 "title" := Text(w.title), "description" := Text(w.description),
                 "priority" := Text(PriorityText(w.priority)), "status" := Text(StatusText(w.status)),
                 "created_by" := Text(c.uuid(w.createdBy)), "assigned_to" := Optional(w.assignee, c.uuid),
                 "created_at" := Text(c.time(w.created)), "updated_at" := Text(c.time(w.updated)),
                 "completed_at" := Optional(w.completed, c.time)])
  }

  /** The stored form of an audit row's value. */
  function Stored(c: Codec, s: Option<Snapshot>): Option<Json> {
    match s
    case None => None
    case Some(snapshot) => Some(Encoded(c, snapshot))
  }

  /** Every field is a public one of its type. */
  ghost predicate Public(kind: string, fields: map<string, Json>) {
    forall k :: k in fields ==> Listed(kind, k) && Fits(TypeOf(k), fields[k])
  }

  lemma UserIsPublic(c: Codec, s: Snapshot)
    requires s.UserSnapshot?
    ensures Public("user", Encoded(c, s).fields)
  {
  }

  lemma AssetIsPublic(c: Codec, s: Snapshot)
    requires s.AssetSnapshot?
    ensures Public("asset", Encoded(c, s).fields)
  {
  }

  lemma OrderIsPublic(c: Codec, s: Snapshot)
    requires s.OrderSnapshot?
    ensures Public("work_order", Encoded(c, s).fields)
  {
    OrderFieldsListed(c, s);
    OrderFieldsFit(c, s);
  }

  lemma OrderFieldsListed(c: Codec, s: Snapshot)
    requires s.OrderSnapshot?
    ensures forall k :: k in Encoded(c, s).fields ==> Listed("work_order", k)
  {
  }

  lemma OrderFieldsFit(c: Codec, s: Snapshot)
    requires s.OrderSnapshot?
    ensures forall k :: k in Encoded(c, s).fields ==> Fits(TypeOf(k), Encoded(c, s).fields[k])
  {
  }

  /** What the services write is shown complete and unchanged. */
  lemma WrittenIsShown(c: Codec, s: Option<Snapshot>, kind: Kind)
    requires s.Some? ==> KindOfSnapshot(s.value) == kind
    ensures Shown(KindText(kind), Stored(c, s)) == Ok(Stored(c, s))
  {
    if s.Some? {
      match s.value {
        case UserSnapshot(_, _, _, _, _, _) => UserIsPublic(c, s.value);
        case AssetSnapshot(_, _) => AssetIsPublic(c, s.value);
        case OrderSnapshot(_, _) => OrderIsPublic(c, s.value);
      }
      var fields := Encoded(c, s.value).fields;
      assert Projection(KindText(kind), fields) == fields;
    }
  }

  // ---- What a reader of the audit API finds

  predicate Finds(shown: Result<Option<Json>>, k: string, v: Json) {
    shown.Ok? && shown.value.Some? && shown.value.value.Object?
    && k in shown.value.value.fields && shown.value.value.fields[k] == v
  }

  /** Every field of an order is found under its name, here and below; absent ones as null. */
  lemma OrderTextsFound(c: Codec, id: Uuid, w: Order)
    ensures
      var shown := Shown("work_order", Stored(c, Some(OrderSnapshot(id, w))));
      && Finds(shown, "title", Text(w.title))
      && Finds(shown, "description", Text(w.description))
  {
    WrittenIsShown(c, Some(OrderSnapshot(id, w)), OrderEntity);
    hide Shown, PriorityText, StatusText, Optional, WellTyped, Projection;
  }

  lemma OrderNumberFound(c: Codec, id: Uuid, w: Order)
    ensures
      var shown := Shown("work_order", Stored(c, Some(OrderSnapshot(id, w))));
      && Finds(shown, "id", Text(c.uuid(id)))
      && Finds(shown, "work_order_number", Text(w.number))
  {
    WrittenIsShown(c, Some(OrderSnapshot(id, w)), OrderEntity);
    hide Shown, PriorityText, StatusText, Optional, WellTyped, Projection;
  }

  lemma OrderIdsFound(c: Codec, id: Uuid, w: Order)
    ensures
      var shown := Shown("work_order", Stored(c, Some(OrderSnapshot(id, w))));
      && Finds(shown, "asset_id", Text(c.uuid(w.asset)))
      && Finds(shown, "created_by", Text(c.uuid(w.createdBy)))
  {
    WrittenIsShown(c, Some(OrderSnapshot(id, w)), OrderEntity);
    hide Shown, PriorityText, StatusText, Optional, WellTyped, Projection;
  }

  lemma OrderStateFound(c: Codec, id: Uuid, w: Order)
    ensures
      var shown := Shown("work_order", Stored(c, Some(OrderSnapshot(id, w))));
      && Finds(shown, "assigned_to", if w.assignee.Some? then Text(c.uuid(w.assignee.value)) else Null)
      && Finds(shown, "priority", Text(match w.priority
                                       case Low => "LOW" case Medium => "MEDIUM"
                                       case High => "HIGH" case Critical => "CRITICAL"))
      && Finds(shown, "status", Text(match w.status
                                     case Open => "OPEN" case Assigned => "ASSIGNED" case InProgress => "IN_PROGRESS"
                                     case Completed => "COMPLETED" case Cancelled => "CANCELLED"))
  {
    WrittenIsShown(c, Some(OrderSnapshot(id, w)), OrderEntity);
    hide Shown;
  }

  lemma OrderTimesFound(c: Codec, id: Uuid, w: Order)
    ensures
      var shown := Shown("work_order", Stored(c, Some(OrderSnapshot(id, w))));
      && Finds(shown, "created_at", Text(c.time(w.created))) && Finds(shown, "updated_at", Text(c.time(w.updated)))
      && Finds(shown, "completed_at", if w.completed.Some? then Text(c.time(w.completed.value)) else Null)
  {
    WrittenIsShown(c, Some(OrderSnapshot(id, w)), OrderEntity);
    hide Shown, PriorityText, StatusText;
  }

  lemma AssetFound(c: Codec, id: Uuid, a: Asset)
    ensures
      var shown := Shown("asset", Stored(c, Some(AssetSnapshot(id, a))));
      && Finds(shown, "id", Text(c.uuid(id)))
      && Finds(shown, "asset_code", Text(a.code))
  {
    WrittenIsShown(c, Some(AssetSnapshot(id, a)), AssetEntity);
    hide Shown, AssetStatusText;
  }

  lemma AssetTextsFound(c: Codec, id: Uuid, a: Asset)
    ensures
      var shown := Shown("asset", Stored(c, Some(AssetSnapshot(id, a))));
      && Finds(shown, "name", Text(a.name))
      && Finds(shown, "category", Text(a.category))
  {
    WrittenIsShown(c, Some(AssetSnapshot(id, a)), AssetEntity);
    hide Shown, AssetStatusText;
  }

  lemma AssetStateFound(c: Codec, id: Uuid, a: Asset)
    ensures
      var shown := Shown("asset", Stored(c, Some(AssetSnapshot(id, a))));
      && Finds(shown, "location", Text(a.location))
      && Finds(shown, "created_at", Text(c.time(a.created)))
      && Finds(shown, "updated_at", Text(c.time(a.updated)))
      && Finds(shown, "status", Text(match a.status
                                     case ActiveAsset => "ACTIVE" case InactiveAsset => "INACTIVE"
                                     case MaintenanceAsset => "MAINTENANCE" case RetiredAsset => "RETIRED"))
  {
    WrittenIsShown(c, Some(AssetSnapshot(id, a)), AssetEntity);
    hide Shown;
  }

  /** A password change is found only where there was one. */
  lemma UserFound(c: Codec, id: Uuid, name: string, email: string, role: Role, active: bool, passwordChanged: bool)
    ensures
      var shown := Shown("user", Stored(c, Some(UserSnapshot(id, name, email, role, active, passwordChanged))));
      && Finds(shown, "id", Text(c.uuid(id))) && Finds(shown, "name", Text(name)) && Finds(shown, "email", Text(email))
      && Finds(shown, "role", Text(match role
                                   case Admin => "ADMIN" case Manager => "MANAGER" case Technician => "TECHNICIAN"))
      && Finds(shown, "is_active", Bool(active))
      && (forall v :: Finds(shown, "password_changed", v) <==> passwordChanged && v == Bool(true))
  {
    WrittenIsShown(c, Some(UserSnapshot(id, name, email, role, active, passwordChanged)), UserEntity);
  }
}
