/**
  The request schemas of disk/api/schema.py as predicates over a JSON value,
  and the typed item the import pipeline receives once a request passes them.
 */
module ApiSchema {
  import opened Optional
  import opened DbSchema

  /** A JSON value as decoded from a request body. A number with a fraction is `JFrac`. */
  datatype Json =
    | JNull
    | JBool(b: bool)
    | JInt(n: int)
    | JFrac(x: real)
    | JStr(s: string)
    | JArr(elems: seq<Json>)
    | JObj(fields: map<string, Json>)

  /** Parsing the `%Y-%m-%dT%H:%M:%S.%fZ` date format is a library call; it is passed in. */
  type DateParser = string -> Option<Date>

  const URL_MAX_LENGTH: nat := 256

  /** `Str(validate=Length(min, max))`: a string (not null, not another type) of admissible length. */
  predicate StrOfLength(j: Json, min: nat, max: Option<nat>)
  {
    j.JStr? && min <= |j.s| && (max.Some? ==> |j.s| <= max.value)
  }

  /** A `Date(format=...)` field that is present and parses. */
  predicate DateField(o: map<string, Json>, key: string, parseDate: DateParser)
  {
    key in o && o[key].JStr? && parseDate(o[key].s).Some?
  }

  // ----- ImportSchema -----

  const ItemKeys: set<string> := {"id", "url", "parentId", "type", "size"}

  /** `id`: required, at least one character. */
  predicate IdRule(o: map<string, Json>)
  {
    "id" in o && StrOfLength(o["id"], 1, None)
  }

  /** `url`: optional; when present 1 to 256 characters. */
  predicate UrlRule(o: map<string, Json>)
  {
    "url" !in o || StrOfLength(o["url"], 1, Some(URL_MAX_LENGTH))
  }

  /** `parentId`: optional; when present at least one character. */
  predicate ParentIdRule(o: map<string, Json>)
  {
    "parentId" !in o || StrOfLength(o["parentId"], 1, None)
  }

  /** `type`: required, one of the `ImportType` values. */
  predicate TypeRule(o: map<string, Json>)
  {
    "type" in o && o["type"].JStr? && ParseImportType(o["type"].s).Some?
  }

  /** `size`: optional; when present a strict integer (no fraction, no string, no boolean) at least 0. */
  predicate SizeRule(o: map<string, Json>)
  {
    "size" !in o || (o["size"].JInt? && o["size"].n >= 0)
  }

  /** The field rules `ImportSchema` and `NodeSchema` share. */
  predicate ItemRules(o: map<string, Json>)
  {
    IdRule(o) && UrlRule(o) && ParentIdRule(o) && TypeRule(o) && SizeRule(o)
  }

  /**
    `ImportSchema`: every field rule holds, and no key is undeclared
    (marshmallow 3 schemas raise on unknown fields by default).
   */
  predicate ValidItem(o: map<string, Json>)
  {
    ItemRules(o) && o.Keys <= ItemKeys
  }

  /** A loaded item: the fields `ImportSchema` declares, typed; absent optional fields are `None`. */
  datatype Item = Item(id: string, url: Option<string>, parentId: Option<string>, itemType: ImportType, size: Option<nat>)

  /** What the field rules guarantee of a loaded item. */
  predicate WellFormed(item: Item)
  {
    && |item.id| >= 1
    && (item.url.Some? ==> 1 <= |item.url.value| <= URL_MAX_LENGTH)
    && (item.parentId.Some? ==> |item.parentId.value| >= 1)
  }

  /** The item fields of a node object: its `ImportSchema` fields, without `date` and `children`. */
  function ItemFields(o: map<string, Json>): (f: map<string, Json>)
    ensures f.Keys <= ItemKeys && forall k :: k in o && k in ItemKeys ==> k in f && f[k] == o[k]
  {
    map k | k in o && k in ItemKeys :: o[k]
  }

  /** The dictionary a loaded item is: its present fields as JSON. */
  function Dump(item: Item): (d: map<string, Json>)
    ensures d.Keys <= ItemKeys
  {
    var base := map["id" := JStr(item.id), "type" := JStr(TypeValue(item.itemType))];
    var withUrl := if item.url.Some? then base["url" := JStr(item.url.value)] else base;
    var withParent := if item.parentId.Some? then withUrl["parentId" := JStr(item.parentId.value)] else withUrl;
    if item.size.Some? then withParent["size" := JInt(item.size.value)] else withParent
  }

  /**
    Validates one submitted object against `ImportSchema`. It loads exactly
    when every rule holds and it has no other key, and dumping the loaded
    item gives the object back.
   */
  function LoadItem(o: map<string, Json>): (r: Option<Item>)
    ensures r.Some? <==> ValidItem(o)
    ensures r.Some? ==> WellFormed(r.value) && Dump(r.value) == o
  {
    if !ValidItem(o) then None
    else
      var item := Item(
        o["id"].s,
        if "url" in o then Some(o["url"].s) else None,
        if "parentId" in o then Some(o["parentId"].s) else None,
        ParseImportType(o["type"].s).value,
        if "size" in o then Some(o["size"].n as nat) else None);
      assert Dump(item) == o;
      Some(item)
  }

  /** Dumping a well-formed item and loading it back gives the item. */
  lemma LoadDumpRoundTrip(item: Item)
    requires WellFormed(item)
    ensures LoadItem(Dump(item)) == Some(item)
  {
    var d := Dump(item);
    ImportTypeValues();
    assert ValidItem(d);
    var r := LoadItem(d);
    assert r.value.itemType == item.itemType;
  }

  // ----- ImportsSchema -----

  /** An import request as the handler reads it: the loaded items and the request's date. */
  datatype ImportRequest = ImportRequest(items: seq<Item>, updateDate: Date)

  const ImportsKeys: set<string> := {"items", "updateDate"}

  /** `ImportsSchema`: `items` is a list of valid items and `updateDate` a date, both required, nothing else. */
  predicate ValidImports(j: Json, parseDate: DateParser)
  {
    && j.JObj?
    && j.fields.Keys <= ImportsKeys
    && "items" in j.fields && j.fields["items"].JArr?
    && (forall i :: 0 <= i < |j.fields["items"].elems| ==>
          j.fields["items"].elems[i].JObj? && ValidItem(j.fields["items"].elems[i].fields))
    && DateField(j.fields, "updateDate", parseDate)
  }

  /** Loads a list of items, failing if any element is not a valid item. */
  function LoadItems(elems: seq<Json>): (r: Option<seq<Item>>)
    ensures r.Some? <==> forall i :: 0 <= i < |elems| ==> elems[i].JObj? && ValidItem(elems[i].fields)
    ensures r.Some? ==> |r.value| == |elems|
    ensures r.Some? ==> forall i :: 0 <= i < |elems| ==> elems[i].JObj? && LoadItem(elems[i].fields) == Some(r.value[i])
  {
    if elems == [] then Some([])
    else if !elems[0].JObj? then None
    else
      match LoadItem(elems[0].fields)
      case None => None
      case Some(first) =>
        match LoadItems(elems[1..])
        case None => None
        case Some(rest) => Some([first] + rest)
  }

  /** Validates and loads an import request. */
  function LoadImports(j: Json, parseDate: DateParser): (r: Option<ImportRequest>)
    ensures r.Some? <==> ValidImports(j, parseDate)
    ensures r.Some? ==>
      && |r.value.items| == |j.fields["items"].elems|
      && (forall i :: 0 <= i < |r.value.items| ==>
            LoadItem(j.fields["items"].elems[i].fields) == Some(r.value.items[i]) && WellFormed(r.value.items[i]))
      && parseDate(j.fields["updateDate"].s) == Some(r.value.updateDate)
  {
    if !(j.JObj? && j.fields.Keys <= ImportsKeys && "items" in j.fields && j.fields["items"].JArr? && DateField(j.fields, "updateDate", parseDate)) then None
    else
      match LoadItems(j.fields["items"].elems)
      case None => None
      case Some(items) => Some(ImportRequest(items, parseDate(j.fields["updateDate"].s).value))
  }

  // ----- DeleteIdSchema -----

  const DeleteIdKeys: set<string> := {"id", "date"}

  /** `DeleteIdSchema`: a non-empty `id` and a `date`, both required, nothing else. */
  predicate ValidDeleteId(j: Json, parseDate: DateParser)
  {
    j.JObj? && j.fields.Keys <= DeleteIdKeys && IdRule(j.fields) && DateField(j.fields, "date", parseDate)
  }

  /** Validates a delete request, giving the identifier and the date. */
  function LoadDeleteId(j: Json, parseDate: DateParser): (r: Option<(string, Date)>)
    ensures r.Some? <==> ValidDeleteId(j, parseDate)
    ensures r.Some? ==> |r.value.0| >= 1 && r.value.0 == j.fields["id"].s && parseDate(j.fields["date"].s) == Some(r.value.1)
  {
    if ValidDeleteId(j, parseDate) then Some((j.fields["id"].s, parseDate(j.fields["date"].s).value)) else None
  }

  // ----- NodeSchema -----

  const NodeKeys: set<string> := ItemKeys + {"date", "children"}

  /**
    `NodeSchema`: the item rules, a required `date`, and an optional list of
    `children`, each of which is a valid node in turn; no other key.
   */
  predicate ValidNode(j: Json, parseDate: DateParser)
    decreases j
  {
    && j.JObj?
    && j.fields.Keys <= NodeKeys
    && ItemRules(j.fields)
    && DateField(j.fields, "date", parseDate)
    && ("children" !in j.fields ||
        (j.fields["children"].JArr? &&
         forall c :: c in j.fields["children"].elems ==> ValidNode(c, parseDate)))
  }

  /**
    Every node of a valid tree, the root and each child, carries a loadable
    item: its fields other than `date` and `children`.
   */
  lemma ValidNodeItems(j: Json, parseDate: DateParser)
    requires ValidNode(j, parseDate)
    ensures LoadItem(ItemFields(j.fields)).Some? && WellFormed(LoadItem(ItemFields(j.fields)).value)
    ensures "children" in j.fields ==> forall c :: c in j.fields["children"].elems ==>
      ValidNode(c, parseDate) && LoadItem(ItemFields(c.fields)).Some?
  {
  }
}
