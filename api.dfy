/**
 * The value types of api.py (`PollenType`, `City`), the catalogs built from
 * the `items` of a response, and the forecast table that `async_get_forecast`
 * builds by folding the `levelSeries` of the first forecast item into one
 * inner dict per pollen type.
 */
module Api {
  import opened Wrappers
  import opened PyJson

  /** A pollen type. `id` and `name` are whatever the response held. */
  datatype PollenType = PollenType(id: Json, name: Json)

  /** A forecasting region. */
  datatype City = City(regionId: Json, name: Json)

  // ---------------------------------------------------------------------
  // Equality and hashing of PollenType
  // ---------------------------------------------------------------------

  /** The right operand of `PollenType.__eq__`: another pollen type, a
      string, or an object of any other type. */
  datatype Operand = OfPollenType(p: PollenType) | OfStr(s: string) | OfOther

  /** How a decoded JSON value enters a comparison. */
  function OperandOf(v: Json): (o: Operand)
    ensures o.OfStr? <==> v.JStr?
    ensures o.OfStr? ==> v == JStr(o.s)
  {
    if v.JStr? then OfStr(v.s) else OfOther
  }

  /** `PollenType.__eq__`. */
  predicate Eq(p: PollenType, other: Operand) {
    match other
    case OfPollenType(q) => p.id == q.id
    case OfStr(s) => p.id == JStr(s)
    case OfOther => false
  }

  /** `PollenType.__hash__` returns `hash(self.id)`. Python's hash is a
      function of the value hashed, so the model gives that value; `None`
      stands for an unhashable id, where `hash` raises TypeError. */
  function Hash(p: PollenType): Option<Json> {
    if Hashable(p.id) then Some(p.id) else None
  }

  /** Equality between pollen types is an equivalence relation, as dict keys need. */
  lemma EqIsEquivalence(p: PollenType, q: PollenType, u: PollenType)
    ensures Eq(p, OfPollenType(p))
    ensures Eq(p, OfPollenType(q)) ==> Eq(q, OfPollenType(p))
    ensures Eq(p, OfPollenType(q)) && Eq(q, OfPollenType(u)) ==> Eq(p, OfPollenType(u))
  {
  }

  /** The hash ignores the name and agrees for every pair that compares equal,
      including a pollen type and the string equal to its id. */
  lemma HashConsistentWithEq(p: PollenType, q: PollenType, s: string)
    ensures Hash(p) == Hash(PollenType(p.id, q.name))
    ensures Eq(p, OfPollenType(q)) ==> Hash(p) == Hash(q)
    ensures Eq(p, OfStr(s)) ==> Hash(p) == Some(JStr(s))
  {
  }

  // ---------------------------------------------------------------------
  // Catalogs (api.py:86-89 and 98-101)
  // ---------------------------------------------------------------------

  /** An item both comprehensions can read: a dict with `id` and `name`. */
  predicate IsRecord(item: Json) {
    item.JObj? && "id" in item.fields && "name" in item.fields
  }

  /** The exception `item['id']` or `item['name']` raises on an item that is
      not a record. */
  function RecordError(item: Json): PyError {
    if item.JObj? then KeyError else TypeError
  }

  /** `[make(item['id'], item['name']) for item in items]`: one value per
      item, in order, or the exception of the first item that is not a record. */
  function Records<T>(items: seq<Json>, make: (Json, Json) -> T): (r: Result<seq<T>, PyError>)
    ensures r.Success? <==> forall i :: 0 <= i < |items| ==> IsRecord(items[i])
    ensures r.Success? ==> |r.value| == |items|
    ensures r.Success? ==>
      forall i :: 0 <= i < |items| ==> r.value[i] == make(items[i].fields["id"], items[i].fields["name"])
    ensures r.Failure? ==>
      exists i :: 0 <= i < |items| && !IsRecord(items[i]) && r.error == RecordError(items[i]) &&
                  forall j :: 0 <= j < i ==> IsRecord(items[j])
    decreases |items|
  {
    if items == [] then Success([])
    else
      var item := items[0];
      if !item.JObj? then Failure(TypeError)
      else if "id" !in item.fields || "name" !in item.fields then Failure(KeyError)
      else
        var rest := Records(items[1..], make);
        if rest.Failure? then
          var k :| 0 <= k < |items| - 1 && !IsRecord(items[1..][k]) && rest.error == RecordError(items[1..][k]) &&
                   forall j :: 0 <= j < k ==> IsRecord(items[1..][j]);
          assert !IsRecord(items[k + 1]) && forall j :: 0 <= j < k + 1 ==> IsRecord(items[j]);
          Failure(rest.error)
        else
          Success([make(item.fields["id"], item.fields["name"])] + rest.value)
  }

  /** `response.get('items', [])` as the list a comprehension runs over. */
  function CatalogItems(response: Option<Json>): (r: Result<seq<Json>, PyError>)
    ensures response.None? ==> r == Failure(AttributeError)
    ensures response.Some? && response.value.JObj? && "items" !in response.value.fields ==> r == Success([])
    ensures (response.Some? && response.value.JObj? && "items" in response.value.fields &&
             response.value.fields["items"].JArr?) ==> r == Success(response.value.fields["items"].elems)
  {
    var items :- Get(AsPython(response), "items", JArr([]));
    IterateRecords(items)
  }

  /** The pollen-type catalog built from a pollen-types response. */
  function PollenTypesFrom(response: Option<Json>): (r: Result<seq<PollenType>, PyError>)
    ensures response.None? ==> r == Failure(AttributeError)
    ensures response.Some? && response.value.JObj? && "items" !in response.value.fields ==> r == Success([])
    ensures r.Success? ==>
      && CatalogItems(response).Success?
      && var items := CatalogItems(response).value;
      && |r.value| == |items|
      && forall i :: 0 <= i < |items| ==>
           IsRecord(items[i]) && r.value[i] == PollenType(items[i].fields["id"], items[i].fields["name"])
    ensures CatalogItems(response).Success? ==>
      (r.Success? <==> forall i :: 0 <= i < |CatalogItems(response).value| ==> IsRecord(CatalogItems(response).value[i]))
  {
    var items :- CatalogItems(response);
    Records(items, (id, name) => PollenType(id, name))
  }

  /** The city catalog built from a regions response; `region_id` is the item's `id`. */
  function CitiesFrom(response: Option<Json>): (r: Result<seq<City>, PyError>)
    ensures response.None? ==> r == Failure(AttributeError)
    ensures response.Some? && response.value.JObj? && "items" !in response.value.fields ==> r == Success([])
    ensures r.Success? ==>
      && CatalogItems(response).Success?
      && var items := CatalogItems(response).value;
      && |r.value| == |items|
      && forall i :: 0 <= i < |items| ==>
           IsRecord(items[i]) && r.value[i] == City(items[i].fields["id"], items[i].fields["name"])
    ensures CatalogItems(response).Success? ==>
      (r.Success? <==> forall i :: 0 <= i < |CatalogItems(response).value| ==> IsRecord(CatalogItems(response).value[i]))
  {
    var items :- CatalogItems(response);
    Records(items, (id, name) => City(id, name))
  }

  // ---------------------------------------------------------------------
  // The forecast table (api.py:116-119)
  // ---------------------------------------------------------------------

  /** One entry of the outer dict: a pollen-type key and its `{time: level}` dict. */
  datatype Row = Row(key: PollenType, levels: map<Json, Json>)

  /** The outer dict, in insertion order. */
  type Table = seq<Row>

  function Keys(t: Table): (ks: seq<PollenType>)
    ensures |ks| == |t| && forall i :: 0 <= i < |t| ==> ks[i] == t[i].key
  {
    seq(|t|, i requires 0 <= i < |t| => t[i].key)
  }

  /** No two keys compare equal. */
  ghost predicate DistinctIds(ks: seq<PollenType>) {
    forall i, j :: 0 <= i < j < |ks| ==> ks[i].id != ks[j].id
  }

  /** The test a dict applies to a stored key: same hash, and the stored
      key's `__eq__` accepts the probe. */
  predicate Hit(k: PollenType, h: Json, o: Operand) {
    Hash(k) == Some(h) && Eq(k, o)
  }

  /** The position of the stored key a probe with hash value `h` and operand
      `o` finds. */
  function Probe(t: Table, h: Json, o: Operand): (r: Option<nat>)
    ensures r.Some? ==> r.value < |t| && Hit(t[r.value].key, h, o)
    ensures r.None? ==> forall j :: 0 <= j < |t| ==> !Hit(t[j].key, h, o)
    decreases |t|
  {
    if t == [] then None
    else if Hit(t[0].key, h, o) then Some(0)
    else match Probe(t[1..], h, o)
      case None => None
      case Some(i) => Some(i + 1)
  }

  /** Whether `forecast[key]` finds the entry keyed by `k`. */
  predicate Matches(k: PollenType, key: Json) {
    Hashable(key) && Hit(k, key, OperandOf(key))
  }

  /** A raw JSON key finds a pollen type exactly when it is a string equal to
      the pollen type's id: a number equal to the id hashes alike but
      `__eq__` refuses it. */
  lemma MatchesOnlyStrings(k: PollenType, key: Json)
    ensures Matches(k, key) <==> key.JStr? && k.id == key
  {
  }

  /** `forecast[key]`: the position of the entry, KeyError when no key
      compares equal, TypeError when `key` cannot be hashed. */
  function Lookup(t: Table, key: Json): (r: Result<nat, PyError>)
    ensures r.Success? ==> r.value < |t| && Matches(t[r.value].key, key)
    ensures r.Success? <==> exists i :: 0 <= i < |t| && Matches(t[i].key, key)
    ensures r.Failure? ==> r.error == (if Hashable(key) then KeyError else TypeError)
  {
    if !Hashable(key) then Failure(TypeError)
    else match Probe(t, key, OperandOf(key))
      case None => Failure(KeyError)
      case Some(i) => Success(i)
  }

  /** `{pollen: {} for pollen in catalog}`: a pollen type whose id equals an
      earlier one's overwrites that entry's value and keeps the earlier key. */
  function InitialTable(catalog: seq<PollenType>): (r: Result<Table, PyError>)
    ensures r.Success? <==> forall i :: 0 <= i < |catalog| ==> Hashable(catalog[i].id)
    ensures r.Failure? ==> r.error == TypeError
    decreases |catalog|
  {
    if catalog == [] then Success([])
    else
      var t :- InitialTable(catalog[..|catalog| - 1]);
      var p := catalog[|catalog| - 1];
      if Hash(p).None? then Failure(TypeError)
      else match Probe(t, p.id, OfPollenType(p))
        case Some(i) => Success(t[i := Row(t[i].key, map[])])
        case None => Success(t + [Row(p, map[])])
  }

  /** The position of the first catalog entry with id `id`; `|catalog|` when there is none. */
  function Rank(catalog: seq<PollenType>, id: Json): (r: nat)
    ensures r <= |catalog|
    ensures r < |catalog| ==> catalog[r].id == id
    ensures forall j :: 0 <= j < r ==> catalog[j].id != id
    decreases |catalog|
  {
    if catalog == [] then 0
    else
      var r := Rank(catalog[..|catalog| - 1], id);
      if r < |catalog| - 1 then r
      else if catalog[|catalog| - 1].id == id then |catalog| - 1
      else |catalog|
  }

  /** Every entry holds an empty inner dict. */
  ghost predicate EmptyLevels(t: Table) {
    forall i :: 0 <= i < |t| ==> t[i].levels == map[]
  }

  /** Every key is the first catalog entry carrying its id. */
  ghost predicate FirstOccurrences(catalog: seq<PollenType>, t: Table) {
    forall i :: 0 <= i < |t| ==> Rank(catalog, t[i].key.id) < |catalog| && catalog[Rank(catalog, t[i].key.id)] == t[i].key
  }

  /** The keys come in order of first occurrence in the catalog. */
  ghost predicate InCatalogOrder(catalog: seq<PollenType>, t: Table) {
    forall i, j :: 0 <= i < j < |t| ==> Rank(catalog, t[i].key.id) < Rank(catalog, t[j].key.id)
  }

  /** Every catalog id is the id of some key. */
  ghost predicate CoversCatalog(catalog: seq<PollenType>, t: Table) {
    forall c :: 0 <= c < |catalog| ==> exists i :: 0 <= i < |t| && t[i].key.id == catalog[c].id
  }

  /** The initial table of `catalog` as the dict comprehension leaves it. */
  ghost predicate KeyedBy(catalog: seq<PollenType>, t: Table) {
    && DistinctIds(Keys(t))
    && EmptyLevels(t)
    && FirstOccurrences(catalog, t)
    && InCatalogOrder(catalog, t)
    && CoversCatalog(catalog, t)
  }

  /** Appending a catalog entry leaves the ranks of the ids already present alone. */
  lemma RankExtend(prefix: seq<PollenType>, p: PollenType, id: Json)
    requires Rank(prefix, id) < |prefix|
    ensures Rank(prefix + [p], id) == Rank(prefix, id)
  {
    assert (prefix + [p])[..|prefix|] == prefix;
  }

  /** The rank of an id absent so far is the position it is appended at. */
  lemma RankNew(prefix: seq<PollenType>, p: PollenType)
    requires Rank(prefix, p.id) == |prefix|
    ensures Rank(prefix + [p], p.id) == |prefix|
  {
    assert (prefix + [p])[..|prefix|] == prefix;
  }

  /** Inserting a pollen type whose id is already a key keeps the key. */
  lemma {:induction false} KeyedByOverwrite(prefix: seq<PollenType>, p: PollenType, t: Table, i: nat)
    requires KeyedBy(prefix, t)
    requires i < |t| && t[i].key.id == p.id
    ensures KeyedBy(prefix + [p], t[i := Row(t[i].key, map[])])
  {
    var catalog := prefix + [p];
    var t' := t[i := Row(t[i].key, map[])];
    assert Keys(t') == Keys(t);
    forall k | 0 <= k < |t'|
      ensures Rank(catalog, t'[k].key.id) == Rank(prefix, t[k].key.id)
    {
      RankExtend(prefix, p, t[k].key.id);
    }
    assert FirstOccurrences(catalog, t') by {
      forall k | 0 <= k < |t'|
        ensures Rank(catalog, t'[k].key.id) < |catalog| && catalog[Rank(catalog, t'[k].key.id)] == t'[k].key
      {
        assert Rank(catalog, t'[k].key.id) == Rank(prefix, t[k].key.id);
      }
    }
    assert CoversCatalog(catalog, t') by {
      forall c | 0 <= c < |catalog|
        ensures exists k :: 0 <= k < |t'| && t'[k].key.id == catalog[c].id
      {
        if c < |prefix| {
          assert catalog[c] == prefix[c];
          var k :| 0 <= k < |t| && t[k].key.id == prefix[c].id;
          assert t'[k].key == t[k].key;
        } else {
          assert t'[i].key.id == catalog[c].id;
        }
      }
    }
  }

  /** A new id ranks after every id already keyed, and those keep their rank. */
  lemma AppendRanks(prefix: seq<PollenType>, p: PollenType, t: Table)
    requires FirstOccurrences(prefix, t) && CoversCatalog(prefix, t)
    requires forall k :: 0 <= k < |t| ==> t[k].key.id != p.id
    ensures Rank(prefix + [p], p.id) == |prefix|
    ensures forall k :: 0 <= k < |t| ==>
      Rank(prefix + [p], t[k].key.id) == Rank(prefix, t[k].key.id) < |prefix|
  {
    forall c | 0 <= c < |prefix|
      ensures prefix[c].id != p.id
    {
      var k :| 0 <= k < |t| && t[k].key.id == prefix[c].id;
    }
    assert Rank(prefix, p.id) == |prefix|;
    RankNew(prefix, p);
    forall k | 0 <= k < |t|
      ensures Rank(prefix + [p], t[k].key.id) == Rank(prefix, t[k].key.id) < |prefix|
    {
      RankExtend(prefix, p, t[k].key.id);
    }
  }

  /** Inserting a pollen type with a new id appends an entry for it. */
  lemma KeyedByAppend(prefix: seq<PollenType>, p: PollenType, t: Table)
    requires KeyedBy(prefix, t)
    requires forall k :: 0 <= k < |t| ==> t[k].key.id != p.id
    ensures KeyedBy(prefix + [p], t + [Row(p, map[])])
  {
    var catalog := prefix + [p];
    var t' := t + [Row(p, map[])];
    assert forall k :: 0 <= k < |t| ==> t'[k] == t[k];
    assert t'[|t|] == Row(p, map[]);
    AppendRanks(prefix, p, t);
    assert DistinctIds(Keys(t')) by {
      forall a, b | 0 <= a < b < |t'|
        ensures Keys(t')[a].id != Keys(t')[b].id
      {
        if b < |t| {
          assert Keys(t')[a] == Keys(t)[a] && Keys(t')[b] == Keys(t)[b];
        }
      }
    }
    assert EmptyLevels(t');
    assert FirstOccurrences(catalog, t') by {
      forall k | 0 <= k < |t'|
        ensures Rank(catalog, t'[k].key.id) < |catalog| && catalog[Rank(catalog, t'[k].key.id)] == t'[k].key
      {
        if k < |t| {
          assert Rank(catalog, t'[k].key.id) == Rank(prefix, t[k].key.id);
          assert catalog[Rank(prefix, t[k].key.id)] == prefix[Rank(prefix, t[k].key.id)];
        }
      }
    }
    assert InCatalogOrder(catalog, t') by {
      forall a, b | 0 <= a < b < |t'|
        ensures Rank(catalog, t'[a].key.id) < Rank(catalog, t'[b].key.id)
      {
        assert Rank(catalog, t'[a].key.id) == Rank(prefix, t[a].key.id);
        if b < |t| {
          assert Rank(catalog, t'[b].key.id) == Rank(prefix, t[b].key.id);
        }
      }
    }
    assert CoversCatalog(catalog, t') by {
      forall c | 0 <= c < |catalog|
        ensures exists k :: 0 <= k < |t'| && t'[k].key.id == catalog[c].id
      {
        if c < |prefix| {
          assert catalog[c] == prefix[c];
          var k :| 0 <= k < |t| && t[k].key.id == prefix[c].id;
          assert t'[k].key == t[k].key;
        } else {
          assert t'[|t|].key.id == catalog[c].id;
        }
      }
    }
  }

  /** One more catalog entry: the comprehension either raises, overwrites the
      entry whose key has the same id, or appends a new entry. */
  lemma InitialTableSnoc(catalog: seq<PollenType>)
    requires catalog != []
    ensures var prefix := catalog[..|catalog| - 1];
      var p := catalog[|catalog| - 1];
      InitialTable(catalog) ==
        if InitialTable(prefix).Failure? then Failure(InitialTable(prefix).error)
        else if Hash(p).None? then Failure(TypeError)
        else
          var t := InitialTable(prefix).value;
          match Probe(t, p.id, OfPollenType(p))
          case Some(i) => Success(t[i := Row(t[i].key, map[])])
          case None => Success(t + [Row(p, map[])])
  {
  }

  /** The keys of the initial table: one per distinct id, each the first
      catalog entry carrying that id, in order of first occurrence, every
      inner dict empty. */
  lemma {:induction false} InitialTableKeys(catalog: seq<PollenType>)
    requires InitialTable(catalog).Success?
    ensures KeyedBy(catalog, InitialTable(catalog).value)
    decreases |catalog|
  {
    if catalog != [] {
      var n := |catalog| - 1;
      var prefix := catalog[..n];
      var p := catalog[n];
      assert catalog == prefix + [p];
      InitialTableSnoc(catalog);
      InitialTableKeys(prefix);
      var t := InitialTable(prefix).value;
      var probe := Probe(t, p.id, OfPollenType(p));
      if probe.Some? {
        KeyedByOverwrite(prefix, p, t, probe.value);
      } else {
        KeyedByAppend(prefix, p, t);
      }
    }
  }

  /** One pass of the loop body (api.py:118-119) with the statement's
      evaluation order: `item['pollenId']`, then the right-hand side
      `item['level']`, then `forecast[pollenId]`, then `item['time']`, then
      hashing the time for the store. */
  function Step(t: Table, item: Json): (r: Result<Table, PyError>)
  {
    var pollenId :- Field(item, "pollenId");
    var level :- Field(item, "level");
    var i :- Lookup(t, pollenId);
    var time :- Field(item, "time");
    if Hashable(time) then Success(t[i := Row(t[i].key, t[i].levels[time := level])])
    else Failure(TypeError)
  }

  /** The whole loop: the items in order, stopping at the first exception. */
  function Fold(t: Table, series: seq<Json>): Result<Table, PyError>
    decreases |series|
  {
    if series == [] then Success(t)
    else
      var acc :- Fold(t, series[..|series| - 1]);
      Step(acc, series[|series| - 1])
  }

  /** A response whose `items` is a non-empty list starting with a dict. */
  predicate HasFirstItem(response: Option<Json>) {
    && response.Some? && response.value.JObj? && "items" in response.value.fields
    && response.value.fields["items"].JArr? && |response.value.fields["items"].elems| > 0
    && response.value.fields["items"].elems[0].JObj?
  }

  /** `response.get('items', [])[0].get('levelSeries', [])` as the list the
      loop runs over. */
  function LevelSeries(response: Option<Json>): (r: Result<seq<Json>, PyError>)
    ensures response.None? ==> r == Failure(AttributeError)
    ensures response.Some? && response.value.JObj? &&
            ("items" !in response.value.fields || response.value.fields["items"] == JArr([]))
            ==> r == Failure(IndexError)
    ensures r.Success? ==> HasFirstItem(response)
    ensures HasFirstItem(response) ==>
      var first := response.value.fields["items"].elems[0];
      r == (if "levelSeries" in first.fields then IterateRecords(first.fields["levelSeries"]) else Success([]))
  {
    var items :- Get(AsPython(response), "items", JArr([]));
    var first :- First(items);
    var series :- Get(first, "levelSeries", JArr([]));
    IterateRecords(series)
  }

  /** The table `async_get_forecast` caches: the initial table is built
      before the response is read (api.py:116), then the loop runs. */
  function BuildForecast(catalog: seq<PollenType>, response: Option<Json>): Result<Table, PyError>
  {
    var t0 :- InitialTable(catalog);
    var series :- LevelSeries(response);
    Fold(t0, series)
  }

  /** Whether `item` files a level under key `k` at time `x`. */
  predicate Writes(item: Json, k: PollenType, x: Json) {
    && item.JObj? && "pollenId" in item.fields && "time" in item.fields
    && Matches(k, item.fields["pollenId"]) && item.fields["time"] == x
  }

  /** No item after position `j` files a level under `k` at time `x`. */
  ghost predicate LastWrite(series: seq<Json>, j: int, k: PollenType, x: Json) {
    forall j' :: 0 <= j < j' < |series| ==> !Writes(series[j'], k, x)
  }

  /** A step keeps the keys and their order. */
  lemma StepKeys(t: Table, item: Json)
    requires Step(t, item).Success?
    ensures Keys(Step(t, item).value) == Keys(t)
  {
  }

  /** Probing looks at the keys alone. */
  lemma {:induction false} ProbeKeysOnly(t: Table, u: Table, h: Json, o: Operand)
    requires Keys(t) == Keys(u)
    ensures Probe(t, h, o) == Probe(u, h, o)
    decreases |t|
  {
    if t != [] {
      assert t[0].key == Keys(t)[0] == Keys(u)[0] == u[0].key;
      assert Keys(t[1..]) == Keys(t)[1..] == Keys(u)[1..] == Keys(u[1..]);
      ProbeKeysOnly(t[1..], u[1..], h, o);
    }
  }

  /** Whether a step fails, and with which exception, depends on the keys
      only, not on the levels filed so far. */
  lemma StepFailureKeysOnly(t: Table, u: Table, item: Json)
    requires Keys(t) == Keys(u)
    ensures Step(t, item).Success? <==> Step(u, item).Success?
    ensures Step(t, item).Failure? ==> Step(t, item).error == Step(u, item).error
  {
    if item.JObj? && "pollenId" in item.fields {
      var key := item.fields["pollenId"];
      if Hashable(key) {
        ProbeKeysOnly(t, u, key, OperandOf(key));
      }
    }
  }

  /** The fold keeps the keys and their order. */
  lemma {:induction false} FoldKeys(t0: Table, series: seq<Json>)
    requires Fold(t0, series).Success?
    ensures Keys(Fold(t0, series).value) == Keys(t0)
    decreases |series|
  {
    if series != [] {
      var acc := Fold(t0, series[..|series| - 1]).value;
      FoldKeys(t0, series[..|series| - 1]);
      StepKeys(acc, series[|series| - 1]);
    }
  }

  /** The loop over a non-empty series: the loop over all items but the
      last, then one more step. */
  lemma FoldSnoc(t0: Table, series: seq<Json>)
    requires series != []
    ensures var prefix := series[..|series| - 1];
      Fold(t0, series) == if Fold(t0, prefix).Failure? then Failure(Fold(t0, prefix).error)
                          else Step(Fold(t0, prefix).value, series[|series| - 1])
  {
  }

  /** Once the loop has raised, later items change nothing. */
  lemma {:induction false} FoldFailurePersists(t0: Table, series: seq<Json>, m: nat)
    requires m <= |series|
    requires Fold(t0, series[..m]).Failure?
    ensures Fold(t0, series) == Fold(t0, series[..m])
    decreases |series| - m
  {
    if m < |series| {
      var n := |series| - 1;
      FoldSnoc(t0, series);
      if m < n {
        assert series[..n][..m] == series[..m];
        FoldFailurePersists(t0, series[..n], m);
      } else {
        assert series[..m] == series[..n];
      }
    } else {
      assert series[..m] == series;
    }
  }

  /** Every item is accepted against the initial keys. */
  ghost predicate AllAccepted(t0: Table, series: seq<Json>) {
    forall j :: 0 <= j < |series| ==> Step(t0, series[j]).Success?
  }

  /** Item `j` is the first one rejected against the initial keys, with `e`. */
  ghost predicate FirstRejected(t0: Table, series: seq<Json>, j: int, e: PyError) {
    && 0 <= j < |series| && Step(t0, series[j]) == Failure(e)
    && forall j' :: 0 <= j' < j ==> Step(t0, series[j']).Success?
  }

  /** The loop succeeds exactly when every item is accepted against the
      initial keys, and otherwise raises the exception of the first item
      that is not. */
  lemma {:induction false} FoldOutcome(t0: Table, series: seq<Json>)
    ensures Fold(t0, series).Success? <==> AllAccepted(t0, series)
    ensures Fold(t0, series).Failure? ==> exists j :: FirstRejected(t0, series, j, Fold(t0, series).error)
    decreases |series|
  {
    if series != [] {
      var prefix := series[..|series| - 1];
      FoldOutcome(t0, prefix);
      if Fold(t0, prefix).Success? {
        OutcomeAfterAccepted(t0, series);
      } else {
        var j :| FirstRejected(t0, prefix, j, Fold(t0, prefix).error);
        OutcomeAfterRejected(t0, series, j);
      }
    }
  }

  /** The last item decides the outcome once all earlier items were accepted. */
  lemma OutcomeAfterAccepted(t0: Table, series: seq<Json>)
    requires series != []
    requires Fold(t0, series[..|series| - 1]).Success? && AllAccepted(t0, series[..|series| - 1])
    ensures Fold(t0, series).Success? <==> AllAccepted(t0, series)
    ensures Fold(t0, series).Failure? ==> FirstRejected(t0, series, |series| - 1, Fold(t0, series).error)
  {
    var n := |series| - 1;
    var prefix := series[..n];
    var acc := Fold(t0, prefix).value;
    FoldSnoc(t0, series);
    FoldKeys(t0, prefix);
    StepFailureKeysOnly(acc, t0, series[n]);
    assert forall j :: 0 <= j < n ==> prefix[j] == series[j];
    OutcomeOfLastStep(t0, series, Step(acc, series[n]));
  }

  /** The outcome of the loop when its last pass behaves as it would on the
      initial keys and every earlier pass was accepted. */
  lemma OutcomeOfLastStep(t0: Table, series: seq<Json>, last: Result<Table, PyError>)
    requires series != []
    requires Fold(t0, series) == last
    requires last.Success? <==> Step(t0, series[|series| - 1]).Success?
    requires last.Failure? ==> last.error == Step(t0, series[|series| - 1]).error
    requires forall j :: 0 <= j < |series| - 1 ==> Step(t0, series[j]).Success?
    ensures last.Success? <==> AllAccepted(t0, series)
    ensures last.Failure? ==> FirstRejected(t0, series, |series| - 1, last.error)
  {
  }

  /** A rejection before the last item stays the first rejection. */
  lemma OutcomeAfterRejected(t0: Table, series: seq<Json>, j: int)
    requires series != []
    requires Fold(t0, series[..|series| - 1]).Failure?
    requires FirstRejected(t0, series[..|series| - 1], j, Fold(t0, series[..|series| - 1]).error)
    ensures Fold(t0, series).Failure? && !AllAccepted(t0, series)
    ensures FirstRejected(t0, series, j, Fold(t0, series).error)
  {
    var n := |series| - 1;
    var prefix := series[..n];
    FoldSnoc(t0, series);
    assert forall i :: 0 <= i < n ==> prefix[i] == series[i];
  }

  /** Some item of `series` files a level under `k` at time `x`. */
  ghost predicate Filed(series: seq<Json>, k: PollenType, x: Json) {
    exists j :: 0 <= j < |series| && Writes(series[j], k, x)
  }

  /** `Filed` and `LastWrite` on a series read off its prefix and last item. */
  lemma FiledSnoc(series: seq<Json>, k: PollenType, x: Json)
    requires series != []
    ensures var n := |series| - 1;
      Filed(series, k, x) <==> Filed(series[..n], k, x) || Writes(series[n], k, x)
    ensures var n := |series| - 1;
      forall j :: 0 <= j < n && LastWrite(series, j, k, x) ==>
        LastWrite(series[..n], j, k, x) && !Writes(series[n], k, x)
  {
    var n := |series| - 1;
    var prefix := series[..n];
    if Filed(series, k, x) && !Writes(series[n], k, x) {
      var j :| 0 <= j < |series| && Writes(series[j], k, x);
      assert prefix[j] == series[j];
    }
    if Filed(prefix, k, x) {
      var j :| 0 <= j < |prefix| && Writes(prefix[j], k, x);
      assert series[j] == prefix[j];
    }
    forall j | 0 <= j < n && LastWrite(series, j, k, x)
      ensures LastWrite(prefix, j, k, x)
    {
      forall j' | 0 <= j < j' < |prefix|
        ensures !Writes(prefix[j'], k, x)
      {
        assert prefix[j'] == series[j'];
      }
    }
  }

  /** What one step does to entry `i` at time `x`: the item's level lands
      there when the item files `x` under that entry's key, and otherwise
      the entry is unchanged at `x`. */
  lemma StepEffect(acc: Table, item: Json, t: Table, i: int, x: Json)
    requires Step(acc, item) == Success(t)
    requires DistinctIds(Keys(acc))
    requires 0 <= i < |acc|
    ensures |t| == |acc| && t[i].key == acc[i].key
    ensures Writes(item, acc[i].key, x) ==>
      "level" in item.fields && x in t[i].levels && t[i].levels[x] == item.fields["level"]
    ensures !Writes(item, acc[i].key, x) ==>
      (x in t[i].levels <==> x in acc[i].levels) &&
      (x in acc[i].levels ==> t[i].levels[x] == acc[i].levels[x])
  {
    var pid := item.fields["pollenId"];
    var level := item.fields["level"];
    var r := Lookup(acc, pid).value;
    var time := item.fields["time"];
    assert t == acc[r := Row(acc[r].key, acc[r].levels[time := level])];
    if Writes(item, acc[i].key, x) {
      assert acc[i].key.id == pid == acc[r].key.id;
      assert Keys(acc)[i].id == Keys(acc)[r].id;
    }
  }

  /** Entry `i` holds time `x` exactly when it held it in `t0` or some item filed it. */
  ghost predicate HoldsFiled(t0: Table, series: seq<Json>, t: Table) {
    |t| == |t0| &&
    forall i, x :: 0 <= i < |t| ==> (x in t[i].levels <==> x in t0[i].levels || Filed(series, t0[i].key, x))
  }

  /** Entry `i` holds at `x` the level of the last item filing `x` under its key. */
  ghost predicate HoldsLast(t0: Table, series: seq<Json>, t: Table) {
    |t| == |t0| &&
    forall i, j, x :: 0 <= i < |t| && 0 <= j < |series| && Writes(series[j], t0[i].key, x) &&
                      LastWrite(series, j, t0[i].key, x)
                      ==> "level" in series[j].fields && x in t[i].levels && t[i].levels[x] == series[j].fields["level"]
  }

  /** Last write wins: after the loop, entry `i` holds time `x` exactly when
      it held it before or some item files `x` under its key, and then holds
      the level of the last such item. */
  lemma {:induction false} FoldLastWriteWins(t0: Table, series: seq<Json>, t: Table)
    requires Fold(t0, series) == Success(t)
    requires DistinctIds(Keys(t0))
    ensures Keys(t) == Keys(t0)
    ensures HoldsFiled(t0, series, t)
    ensures HoldsLast(t0, series, t)
    decreases |series|
  {
    FoldKeys(t0, series);
    if series != [] {
      var n := |series| - 1;
      var prefix := series[..n];
      var item := series[n];
      FoldSnoc(t0, series);
      var acc := Fold(t0, prefix).value;
      FoldLastWriteWins(t0, prefix, acc);
      assert Keys(acc) == Keys(t0);
      forall i, x | 0 <= i < |t|
        ensures x in t[i].levels <==> x in t0[i].levels || Filed(series, t0[i].key, x)
      {
        assert t0[i].key == Keys(t0)[i] == Keys(acc)[i] == acc[i].key;
        StepEffect(acc, item, t, i, x);
        FiledSnoc(series, t0[i].key, x);
      }
      forall i, j, x | 0 <= i < |t| && 0 <= j < |series| && Writes(series[j], t0[i].key, x) &&
                       LastWrite(series, j, t0[i].key, x)
        ensures "level" in series[j].fields && x in t[i].levels && t[i].levels[x] == series[j].fields["level"]
      {
        assert t0[i].key == Keys(t0)[i] == Keys(acc)[i] == acc[i].key;
        StepEffect(acc, item, t, i, x);
        FiledSnoc(series, t0[i].key, x);
        if j < n {
          assert prefix[j] == series[j];
        }
      }
    }
  }

  /** What `async_get_forecast` caches: one key per distinct pollen-type id,
      in catalog order; an entry holds time `x` exactly when some item of the
      level series files `x` under that pollen type, with the level of the
      last such item; every other entry stays empty. */
  lemma ForecastContents(catalog: seq<PollenType>, response: Option<Json>, t: Table)
    requires BuildForecast(catalog, response) == Success(t)
    ensures InitialTable(catalog).Success? && LevelSeries(response).Success?
    ensures Keys(t) == Keys(InitialTable(catalog).value)
    ensures DistinctIds(Keys(t))
    ensures var series := LevelSeries(response).value;
      forall i, x :: 0 <= i < |t| ==>
        (x in t[i].levels <==> exists j :: 0 <= j < |series| && Writes(series[j], t[i].key, x))
    ensures var series := LevelSeries(response).value;
      forall i, j, x :: 0 <= i < |t| && 0 <= j < |series| && Writes(series[j], t[i].key, x) &&
                        LastWrite(series, j, t[i].key, x)
                        ==> "level" in series[j].fields && t[i].levels[x] == series[j].fields["level"]
  {
    var t0 := InitialTable(catalog).value;
    var series := LevelSeries(response).value;
    InitialTableKeys(catalog);
    FoldLastWriteWins(t0, series, t);
    forall i | 0 <= i < |t|
      ensures t[i].key == t0[i].key
    {
      assert Keys(t)[i] == Keys(t0)[i];
    }
  }

  /** A forecast response whose `items` list is empty or missing fails with
      IndexError once the initial table exists. */
  lemma EmptyItemsIsIndexError(catalog: seq<PollenType>, response: Option<Json>)
    requires InitialTable(catalog).Success?
    requires response.Some? && response.value.JObj?
    requires "items" !in response.value.fields || response.value.fields["items"] == JArr([])
    ensures BuildForecast(catalog, response) == Failure(IndexError)
  {
  }

  /** An item whose `pollenId` is the id of no key fails with KeyError, one
      whose `pollenId` is a list or dict with TypeError. */
  lemma UnknownPollenId(t: Table, item: Json)
    requires item.JObj? && "pollenId" in item.fields && "level" in item.fields
    ensures Hashable(item.fields["pollenId"]) && (forall i :: 0 <= i < |t| ==> t[i].key.id != item.fields["pollenId"])
            ==> Step(t, item) == Failure(KeyError)
    ensures !Hashable(item.fields["pollenId"]) ==> Step(t, item) == Failure(TypeError)
  {
  }
}
