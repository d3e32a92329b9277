/** The importer of project/data_importer.py over an abstract three-table
    store: `rules` keyed by rule key, `licenses` keyed by SPDX id, and the
    set of (SPDX id, rule key) mapping pairs. Every insert is an
    insert-or-ignore, and the foreign-key check rejects a mapping whose
    license or rule row is absent. A connection sees its own uncommitted
    inserts; closing it without a commit drops them. */
module DataImporter {
  import opened Values
  import opened Text

  datatype RuleRow = RuleRow(ruleLabel: Json, description: Json, category: Json)

  datatype LicenseRow = LicenseRow(name: Json, url: Json, summary: Json)

  datatype Tables = Tables(
    rules: map<string, RuleRow>,
    licenses: map<string, LicenseRow>,
    mappings: set<(string, string)>)

  /** The foreign keys of the mapping table. */
  predicate ReferencesHold(t: Tables) {
    forall m | m in t.mappings :: m.0 in t.licenses && m.1 in t.rules
  }

  /** Every row of `a` is still in `b`, unchanged. */
  predicate Extends<K, V(==)>(a: map<K, V>, b: map<K, V>) {
    forall k | k in a :: k in b && b[k] == a[k]
  }

  /** `b` holds every row of `a`, unchanged, and possibly more. */
  predicate Grows(a: Tables, b: Tables) {
    Extends(a.rules, b.rules) && Extends(a.licenses, b.licenses) && a.mappings <= b.mappings
  }

  /** A file as the importer meets it: absent, not JSON, or decoded. */
  datatype Source = Missing | Undecodable | Parsed(value: Json)

  /** SQLite stores integers as signed 64-bit values. */
  predicate FitsInt64(n: int) {
    -0x8000_0000_0000_0000 <= n < 0x8000_0000_0000_0000
  }

  /** Values the database driver can bind: lists and dictionaries are not,
      and an integer outside 64 bits raises an overflow error. */
  predicate Bindable(v: Json) {
    !v.JArr? && !v.JObj? && !(v.JNum? && !FitsInt64(v.n))
  }

  // ---------- the three inserts ----------

  function InsertRuleRow(t: Tables, key: string, row: RuleRow): (r: Tables)
    ensures r.licenses == t.licenses && r.mappings == t.mappings
    ensures Extends(t.rules, r.rules) && r.rules.Keys == t.rules.Keys + {key}
    ensures key !in t.rules ==> r.rules[key] == row
  {
    if key in t.rules then t else t.(rules := t.rules[key := row])
  }

  function InsertLicenseRow(t: Tables, id: string, row: LicenseRow): (r: Tables)
    ensures r.rules == t.rules && r.mappings == t.mappings
    ensures Extends(t.licenses, r.licenses) && r.licenses.Keys == t.licenses.Keys + {id}
    ensures id !in t.licenses ==> r.licenses[id] == row
  {
    if id in t.licenses then t else t.(licenses := t.licenses[id := row])
  }

  function InsertMappingRow(t: Tables, id: string, ruleKey: string): (r: Tables)
    ensures r.rules == t.rules && r.licenses == t.licenses
    ensures t.mappings <= r.mappings && r.mappings - t.mappings <= {(id, ruleKey)}
    ensures (id, ruleKey) in r.mappings <==> (id, ruleKey) in t.mappings || (id in t.licenses && ruleKey in t.rules)
    ensures ReferencesHold(t) ==> ReferencesHold(r)
  {
    if id in t.licenses && ruleKey in t.rules then t.(mappings := t.mappings + {(id, ruleKey)}) else t
  }

  // ---------- import_rules ----------

  /** What the loop does with one element of the rules file. */
  datatype RuleAction =
    | Store(key: string, row: RuleRow)   // an INSERT OR IGNORE
    | NotStored                          // a key the store does not take (not text)
    | MissingField                       // KeyError: skipped with a message
    | Fails                              // any other error: the whole import stops

  function RuleActionOf(item: Json): (r: RuleAction)
    ensures r.MissingField? <==>
      item.JObj? && !("id" in item.fields && "label" in item.fields && "category" in item.fields)
    ensures r.Store? ==>
      && item.JObj? && "id" in item.fields && "label" in item.fields && "category" in item.fields
      && item.fields["id"] == JStr(r.key)
      && r.row.ruleLabel == item.fields["label"]
      && r.row.category == item.fields["category"]
      && ("description" !in item.fields ==> r.row.description == JStr(""))
      && ("description" in item.fields ==> r.row.description == item.fields["description"])
    ensures r.Store? <==>
      && item.JObj? && "id" in item.fields && "label" in item.fields && "category" in item.fields
      && item.fields["id"].JStr? && Bindable(item.fields["label"]) && Bindable(item.fields["category"])
      && Bindable(GetOr(item.fields, "description", JStr("")))
    ensures r.Fails? <==>
      || !item.JObj?
      || (&& "id" in item.fields && "label" in item.fields && "category" in item.fields
          && !(&& Bindable(item.fields["id"]) && Bindable(item.fields["label"]) && Bindable(item.fields["category"])
               && Bindable(GetOr(item.fields, "description", JStr("")))))
  {
    if !item.JObj? then Fails
    else
      var f := item.fields;
      if !("id" in f && "label" in f && "category" in f) then MissingField
      else
        var description := GetOr(f, "description", JStr(""));
        if !(Bindable(f["id"]) && Bindable(f["label"]) && Bindable(description) && Bindable(f["category"])) then Fails
        else if !f["id"].JStr? then NotStored
        else Store(f["id"].s, RuleRow(f["label"], description, f["category"]))
  }

  /** The elements `for rule in rules_data` visits, or `None` when that
      iteration (or the first element's `rule['id']`) raises. */
  function RuleItems(v: Json): Option<seq<Json>> {
    match v
    case JArr(items) => Some(items)
    case JObj(fields) => if fields == map[] then Some([]) else None
    case JStr(s) => if s == [] then Some([]) else None
    case _ => None
  }

  /** The action of each element of the rules file, in order. */
  function Actions(items: seq<Json>): (r: seq<RuleAction>)
    ensures |r| == |items|
    ensures forall i :: 0 <= i < |items| ==> r[i] == RuleActionOf(items[i])
  {
    seq(|items|, i requires 0 <= i < |items| => RuleActionOf(items[i]))
  }

  /** The rule loop from tables `t` with `count` rows added so far: the
      working tables and the count at its end, or `None` when it stops on
      an error. */
  function ApplyRules(actions: seq<RuleAction>, t: Tables, count: nat): Option<(Tables, nat)> {
    if actions == [] then Some((t, count))
    else
      match actions[0]
      case Fails => None
      case Store(key, row) =>
        ApplyRules(actions[1..], InsertRuleRow(t, key, row), if key in t.rules then count else count + 1)
      case NotStored => ApplyRules(actions[1..], t, count)
      case MissingField => ApplyRules(actions[1..], t, count)
  }

  /** `import_rules` on committed tables `t`: the committed tables and the
      count when it commits, `None` when it does not. */
  function RulesRun(source: Source, t: Tables): Option<(Tables, nat)> {
    match source
    case Parsed(v) =>
      (match RuleItems(v)
       case Some(items) => ApplyRules(Actions(items), t, 0)
       case None => None)
    case _ => None
  }

  function TablesAfterRules(source: Source, t: Tables): Tables {
    match RulesRun(source, t)
    case Some(run) => run.0
    case None => t
  }

  /** The rule loop only adds rule rows. */
  lemma {:induction false} ApplyRulesGrows(actions: seq<RuleAction>, t: Tables, count: nat)
    requires ApplyRules(actions, t, count).Some?
    ensures var t' := ApplyRules(actions, t, count).value.0;
      t'.licenses == t.licenses && t'.mappings == t.mappings && Extends(t.rules, t'.rules)
  {
    if actions != [] {
      match actions[0]
      case Store(key, row) =>
        ApplyRulesGrows(actions[1..], InsertRuleRow(t, key, row), if key in t.rules then count else count + 1);
      case NotStored => ApplyRulesGrows(actions[1..], t, count);
      case MissingField => ApplyRulesGrows(actions[1..], t, count);
    }
  }

  /** Element `i` of the rule loop is an insert of `key`. */
  predicate StoresAt(actions: seq<RuleAction>, i: int, key: string) {
    0 <= i < |actions| && actions[i].Store? && actions[i].key == key
  }

  /** Element `i` is the first insert of `key`. */
  predicate FirstStoreAt(actions: seq<RuleAction>, i: int, key: string) {
    StoresAt(actions, i, key) && forall j | 0 <= j < i :: !StoresAt(actions, j, key)
  }

  /** After the rule loop, the rule keys are the old ones and those of the
      inserts; a key new to the table holds the row of its first insert. */
  lemma {:induction false} ApplyRulesStores(actions: seq<RuleAction>, t: Tables, count: nat)
    requires ApplyRules(actions, t, count).Some?
    ensures var rules := ApplyRules(actions, t, count).value.0.rules;
      && (forall k :: k in rules <==> k in t.rules || exists i :: StoresAt(actions, i, k))
      && (forall k, i | k !in t.rules && FirstStoreAt(actions, i, k) :: k in rules && rules[k] == actions[i].row)
  {
    if actions != [] {
      var rest := actions[1..];
      var t1, c1 := t, count;
      if actions[0].Store? {
        t1 := InsertRuleRow(t, actions[0].key, actions[0].row);
        c1 := if actions[0].key in t.rules then count else count + 1;
      }
      assert ApplyRules(actions, t, count) == ApplyRules(rest, t1, c1);
      ApplyRulesStores(rest, t1, c1);
      ApplyRulesGrows(rest, t1, c1);
      var rules := ApplyRules(actions, t, count).value.0.rules;
      forall k
        ensures k in rules <==> k in t.rules || exists i :: StoresAt(actions, i, k)
      {
        if exists i :: StoresAt(actions, i, k) {
          var i :| StoresAt(actions, i, k);
          if i > 0 {
            assert StoresAt(rest, i - 1, k);
          }
        }
        if exists i :: StoresAt(rest, i, k) {
          var i :| StoresAt(rest, i, k);
          assert StoresAt(actions, i + 1, k);
        }
        if k in t1.rules && k !in t.rules {
          assert StoresAt(actions, 0, k);
        }
      }
      forall k, i | k !in t.rules && FirstStoreAt(actions, i, k)
        ensures k in rules && rules[k] == actions[i].row
      {
        if i > 0 {
          assert !StoresAt(actions, 0, k);
          assert FirstStoreAt(rest, i - 1, k) by {
            forall j | 0 <= j < i - 1
              ensures !StoresAt(rest, j, k)
            {
              assert !StoresAt(actions, j + 1, k);
            }
          }
        }
      }
    }
  }

  lemma OneMoreKey<K>(before: set<K>, after: set<K>, key: K)
    requires key !in before && before + {key} <= after
    ensures |after - before| == |after - (before + {key})| + 1
  {
    assert after - before == (after - (before + {key})) + {key};
  }

  /** The count of the rule loop is the number of rule keys it added. */
  lemma {:induction false} ApplyRulesCount(actions: seq<RuleAction>, t: Tables, count: nat)
    requires ApplyRules(actions, t, count).Some?
    ensures var run := ApplyRules(actions, t, count).value;
      t.rules.Keys <= run.0.rules.Keys && run.1 == count + |run.0.rules.Keys - t.rules.Keys|
  {
    if actions == [] {
      var run := ApplyRules(actions, t, count).value;
      assert run.0.rules.Keys - t.rules.Keys == {};
    } else if actions[0].Store? {
      var key, row := actions[0].key, actions[0].row;
      var t1 := InsertRuleRow(t, key, row);
      var c1 := if key in t.rules then count else count + 1;
      assert ApplyRules(actions, t, count) == ApplyRules(actions[1..], t1, c1);
      ApplyRulesCount(actions[1..], t1, c1);
      StoreStepCount(t, key, row, count, ApplyRules(actions[1..], t1, c1).value);
    } else {
      ApplyRulesCount(actions[1..], t, count);
    }
  }

  lemma StoreStepCount(t: Tables, key: string, row: RuleRow, count: nat, run: (Tables, nat))
    requires var t1 := InsertRuleRow(t, key, row);
      t1.rules.Keys <= run.0.rules.Keys
      && run.1 == (if key in t.rules then count else count + 1) + |run.0.rules.Keys - t1.rules.Keys|
    ensures t.rules.Keys <= run.0.rules.Keys && run.1 == count + |run.0.rules.Keys - t.rules.Keys|
  {
    if key !in t.rules {
      OneMoreKey(t.rules.Keys, run.0.rules.Keys, key);
    }
  }

  /** The rule loop stops exactly when some element makes it fail. */
  lemma {:induction false} ApplyRulesFails(actions: seq<RuleAction>, t: Tables, count: nat)
    ensures ApplyRules(actions, t, count).None? <==>
      exists i :: 0 <= i < |actions| && actions[i].Fails?
  {
    if actions != [] {
      assert forall i :: 1 <= i < |actions| ==> actions[1..][i - 1] == actions[i];
      match actions[0]
      case Fails =>
      case Store(key, row) =>
        ApplyRulesFails(actions[1..], InsertRuleRow(t, key, row), if key in t.rules then count else count + 1);
      case NotStored => ApplyRulesFails(actions[1..], t, count);
      case MissingField => ApplyRulesFails(actions[1..], t, count);
    }
  }

  /** A skipped element leaves the rest of the loop as if it were absent. */
  lemma {:induction false} ApplyRulesSkips(before: seq<RuleAction>, after: seq<RuleAction>, t: Tables, count: nat)
    ensures ApplyRules(before + [MissingField] + after, t, count) == ApplyRules(before + after, t, count)
  {
    if before == [] {
      assert before + [MissingField] + after == [MissingField] + after;
      assert ([MissingField] + after)[1..] == after;
      assert before + after == after;
    } else {
      var rest := before[1..];
      assert (before + [MissingField] + after)[1..] == rest + [MissingField] + after;
      assert (before + after)[1..] == rest + after;
      assert (before + [MissingField] + after)[0] == (before + after)[0] == before[0];
      match before[0]
      case Fails =>
      case Store(key, row) =>
        ApplyRulesSkips(rest, after, InsertRuleRow(t, key, row), if key in t.rules then count else count + 1);
      case NotStored => ApplyRulesSkips(rest, after, t, count);
      case MissingField => ApplyRulesSkips(rest, after, t, count);
    }
  }

  /** A rule lacking `id`, `label` or `category` is skipped and the rules
      after it are still inserted. */
  lemma ApplyRulesSkipsIncomplete(before: seq<Json>, bad: Json, after: seq<Json>, t: Tables, count: nat)
    requires bad.JObj?
    requires "id" !in bad.fields || "label" !in bad.fields || "category" !in bad.fields
    ensures ApplyRules(Actions(before + [bad] + after), t, count) == ApplyRules(Actions(before + after), t, count)
  {
    assert Actions(before + [bad] + after) == Actions(before) + [MissingField] + Actions(after);
    assert Actions(before + after) == Actions(before) + Actions(after);
    ApplyRulesSkips(Actions(before), Actions(after), t, count);
  }

  /** `import_rules` only adds rule rows, so it keeps the foreign keys. */
  lemma RulesImportGrows(source: Source, t: Tables)
    ensures var t' := TablesAfterRules(source, t);
      && t'.licenses == t.licenses && t'.mappings == t.mappings
      && Extends(t.rules, t'.rules)
      && (ReferencesHold(t) ==> ReferencesHold(t'))
  {
    if source.Parsed? && RuleItems(source.value).Some? && RulesRun(source, t).Some? {
      ApplyRulesGrows(Actions(RuleItems(source.value).value), t, 0);
    }
  }

  // ---------- import_licenses ----------

  /** `filename.endswith(".json") and not filename.lower().startswith("readme")`. */
  predicate IsLicenseFileName(name: string) {
    EndsWith(name, ".json") && !StartsWith(Lower(name), "readme")
  }

  /** The url: `links[0]["url"]` when `links` is a non-empty list and that
      url is truthy, else `url`, else `text_url`; `None` when `links[0]` is
      not a dictionary (its `.get` raises). */
  function LicenseUrl(d: map<string, Json>): (r: Option<Json>)
    ensures r.None? <==> Get(d, "links").JArr? && |Get(d, "links").items| > 0 && !Get(d, "links").items[0].JObj?
    ensures r.Some? ==>
      r.value == (if && Get(d, "links").JArr? && |Get(d, "links").items| > 0 && Get(d, "links").items[0].JObj?
                     && Truthy(Get(Get(d, "links").items[0].fields, "url"))
                  then Get(Get(d, "links").items[0].fields, "url")
                  else GetOr(d, "url", Get(d, "text_url")))
  {
    var links := Get(d, "links");
    if links.JArr? && |links.items| > 0 then
      if !links.items[0].JObj? then None
      else
        var first := Get(links.items[0].fields, "url");
        Some(if Truthy(first) then first else GetOr(d, "url", Get(d, "text_url")))
    else Some(GetOr(d, "url", Get(d, "text_url")))
  }

  function CategoryKeys(d: map<string, Json>, category: string): seq<Json> {
    var v := GetOr(d, category, JArr([]));
    if v.JArr? then v.items else []
  }

  /** The rule keys a license file lists: its `rules` list alone when it
      has one, otherwise its permissions, conditions and limitations in
      that order. */
  function RuleKeys(d: map<string, Json>): seq<Json> {
    if "rules" in d && d["rules"].JArr? then d["rules"].items
    else CategoryKeys(d, "permissions") + CategoryKeys(d, "conditions") + CategoryKeys(d, "limitations")
  }

  /** What one license file asks of the store. */
  datatype LicensePlan =
    | Raises                                              // caught per file, before any insert
    | NoSpdxId                                            // `continue` on a falsy `spdx_id`
    | Proceed(id: Json, row: LicenseRow, keys: seq<Json>)

  function PlanOf(src: Source): (r: LicensePlan)
    ensures r.NoSpdxId? <==> src.Parsed? && src.value.JObj? && !Truthy(Get(src.value.fields, "spdx_id"))
    ensures r.Proceed? <==>
      && src.Parsed? && src.value.JObj?
      && var d := src.value.fields;
        && Truthy(Get(d, "spdx_id")) && Bindable(Get(d, "spdx_id"))
        && LicenseUrl(d).Some? && Bindable(LicenseUrl(d).value)
        && Bindable(GetOr(d, "title", Get(d, "name"))) && Bindable(GetOr(d, "description", Get(d, "summary")))
    ensures r.Proceed? ==>
      var d := src.value.fields;
      && r.id == Get(d, "spdx_id")
      && r.row == LicenseRow(GetOr(d, "title", Get(d, "name")), LicenseUrl(d).value, GetOr(d, "description", Get(d, "summary")))
      && r.keys == RuleKeys(d)
  {
    match src
    case Missing => Raises
    case Undecodable => Raises
    case Parsed(doc) =>
      if !doc.JObj? then Raises
      else
        var d := doc.fields;
        var id := Get(d, "spdx_id");
        if !Truthy(id) then NoSpdxId
        else
          match LicenseUrl(d)
          case None => Raises
          case Some(url) =>
            var row := LicenseRow(GetOr(d, "title", Get(d, "name")), url, GetOr(d, "description", Get(d, "summary")));
            if !(Bindable(id) && Bindable(row.name) && Bindable(row.url) && Bindable(row.summary)) then Raises
            else Proceed(id, row, RuleKeys(d))
  }

  /** The state of the mapping loop: the tables and whether it raised. */
  datatype MapResult = MapResult(tables: Tables, raised: bool)

  /** One mapping insert; a key or id that is not text is not stored. */
  function MapOne(id: Json, key: Json, t: Tables): Tables {
    if id.JStr? && key.JStr? then InsertMappingRow(t, id.s, key.s) else t
  }

  /** The mapping loop: a foreign-key failure is a warning and the loop goes
      on; a key the driver cannot bind raises and ends it. */
  function MapKeys(id: Json, keys: seq<Json>, t: Tables): MapResult {
    if keys == [] then MapResult(t, false)
    else if !Bindable(keys[0]) then MapResult(t, true)
    else MapKeys(id, keys[1..], MapOne(id, keys[0], t))
  }

  /** The outcome of one license file on the working tables. */
  datatype FileResult = FileResult(working: Tables, inserted: bool, committed: bool)

  function FileApplied(plan: LicensePlan, t: Tables): FileResult {
    match plan
    case Proceed(id, row, keys) =>
      var inserted := id.JStr? && id.s !in t.licenses;
      var t1 := if id.JStr? then InsertLicenseRow(t, id.s, row) else t;
      var m := MapKeys(id, keys, t1);
      FileResult(m.tables, inserted, !m.raised)
    case _ => FileResult(t, false, false)
  }

  /** The state of `import_licenses` between files. */
  datatype Session = Session(committed: Tables, working: Tables, commits: nat, processed: nat, imported: nat)

  function FileStep(s: Session, name: string, src: Source): Session {
    if !IsLicenseFileName(name) then s
    else
      var r := FileApplied(PlanOf(src), s.working);
      Session(
        if r.committed then r.working else s.committed,
        r.working,
        s.commits + (if r.committed then 1 else 0),
        s.processed + 1,
        s.imported + (if r.inserted then 1 else 0))
  }

  function ImportFiles(files: seq<(string, Source)>, s: Session): Session {
    if files == [] then s else ImportFiles(files[1..], FileStep(s, files[0].0, files[0].1))
  }

  /** The fold taken one file further. */
  lemma ImportFilesStep(files: seq<(string, Source)>, i: nat, s: Session)
    requires i < |files|
    ensures ImportFiles(files[i..], s) == ImportFiles(files[i + 1..], FileStep(s, files[i].0, files[i].1))
  {
    assert files[i..][1..] == files[i + 1..];
  }

  /** `import_licenses` over a directory listing, on committed tables `t`. */
  function LicensesImported(files: seq<(string, Source)>, t: Tables): Session {
    ImportFiles(files, Session(t, t, 0, 0, 0))
  }

  /** The committed tables after `import_licenses`; `None` is a missing
      directory. */
  function TablesAfterLicenses(listing: Option<seq<(string, Source)>>, t: Tables): Tables {
    match listing
    case None => t
    case Some(files) => LicensesImported(files, t).committed
  }

  /** A file is skipped for a falsy `spdx_id` and only then. */
  lemma SkipIffNoSpdxId(d: map<string, Json>)
    ensures PlanOf(Parsed(JObj(d))).NoSpdxId? <==> !Truthy(Get(d, "spdx_id"))
  {
  }

  /** A file that is filtered out, skipped, or fails before its license
      insert changes nothing but the processed counter. */
  lemma FileWithoutInsertChangesNothing(s: Session, name: string, src: Source)
    requires !PlanOf(src).Proceed?
    ensures FileStep(s, name, src) == s.(processed := s.processed + if IsLicenseFileName(name) then 1 else 0)
  {
  }

  /** A `rules` list is used exclusively: the category lists do not matter. */
  lemma RulesListExclusive(d: map<string, Json>, e: map<string, Json>)
    requires "rules" in d && d["rules"].JArr?
    requires "rules" in e && e["rules"] == d["rules"]
    ensures RuleKeys(d) == RuleKeys(e)
  {
  }

  /** Without a `rules` list, a category whose value is not a list adds no
      keys, exactly as if it were absent. */
  lemma NonListCategoryIgnored(d: map<string, Json>, category: string)
    requires !("rules" in d && d["rules"].JArr?)
    requires category in ["permissions", "conditions", "limitations"]
    requires category in d && !d[category].JArr?
    ensures RuleKeys(d) == RuleKeys(d - {category})
  {
    var e := d - {category};
    assert !("rules" in e && e["rules"].JArr?);
    assert CategoryKeys(d, category) == [] == CategoryKeys(e, category);
  }

  /** The pairs the mapping loop adds when no key raises. */
  function MappablePairs(id: Json, keys: seq<Json>, t: Tables): set<(string, string)> {
    if id.JStr? && id.s in t.licenses then
      set k | k in keys && k.JStr? && k.s in t.rules :: (id.s, k.s)
    else {}
  }

  /** The mapping loop raises exactly on an unbindable key; otherwise it
      maps every text key whose rule exists, skips the rest, and touches no
      other table. */
  lemma {:induction false} MapKeysEffect(id: Json, keys: seq<Json>, t: Tables)
    ensures var r := MapKeys(id, keys, t);
      && (r.raised <==> exists i :: 0 <= i < |keys| && !Bindable(keys[i]))
      && r.tables.rules == t.rules && r.tables.licenses == t.licenses
      && t.mappings <= r.tables.mappings
      && (!r.raised ==> r.tables.mappings == t.mappings + MappablePairs(id, keys, t))
  {
    if keys != [] {
      assert forall i :: 1 <= i < |keys| ==> keys[1..][i - 1] == keys[i];
      if Bindable(keys[0]) {
        var t1 := MapOne(id, keys[0], t);
        MapKeysEffect(id, keys[1..], t1);
        var r := MapKeys(id, keys, t);
        if !r.raised {
          assert MappablePairs(id, keys[1..], t1) == MappablePairs(id, keys[1..], t);
          assert MappablePairs(id, keys, t) == MappablePairs(id, [keys[0]], t) + MappablePairs(id, keys[1..], t) by {
            assert keys == [keys[0]] + keys[1..];
          }
        }
      }
    } else {
      assert MappablePairs(id, keys, t) == {};
    }
  }

  /** A rule key missing from `rules` only costs its own mapping: the
      license row stays and the other keys are still mapped. */
  lemma UnknownRuleSkipped(id: string, keys: seq<Json>, t: Tables, unknown: string)
    requires id in t.licenses
    requires forall i :: 0 <= i < |keys| ==> keys[i].JStr?
    requires JStr(unknown) in keys && unknown !in t.rules
    ensures var r := MapKeys(JStr(id), keys, t);
      && !r.raised
      && r.tables.licenses == t.licenses
      && (id, unknown) !in r.tables.mappings - t.mappings
      && (forall k | k in keys && k.s in t.rules :: (id, k.s) in r.tables.mappings)
  {
    MapKeysEffect(JStr(id), keys, t);
  }

  /** One file keeps the foreign keys and the rule rows, and only adds rows. */
  lemma FileAppliedGrows(plan: LicensePlan, t: Tables)
    ensures var r := FileApplied(plan, t);
      && r.working.rules == t.rules && Grows(t, r.working)
      && (ReferencesHold(t) ==> ReferencesHold(r.working))
  {
    if plan.Proceed? {
      var t1 := if plan.id.JStr? then InsertLicenseRow(t, plan.id.s, plan.row) else t;
      MapKeysEffect(plan.id, plan.keys, t1);
      MapKeysGrowsByPairs(plan.id, plan.keys, t1);
    }
  }

  /** Whatever the mapping loop adds references existing rows. */
  lemma {:induction false} MapKeysGrowsByPairs(id: Json, keys: seq<Json>, t: Tables)
    ensures MapKeys(id, keys, t).tables.mappings <= t.mappings + MappablePairs(id, keys, t)
  {
    if keys != [] && Bindable(keys[0]) {
      var t1 := MapOne(id, keys[0], t);
      MapKeysGrowsByPairs(id, keys[1..], t1);
      MapKeysEffect(id, [keys[0]], t);
      assert t1.mappings <= t.mappings + MappablePairs(id, keys, t);
      assert MappablePairs(id, keys[1..], t1) <= MappablePairs(id, keys, t);
    }
  }

  /** The session invariant: both committed and working tables hold the
      original rule rows, grow from the original tables, and keep the
      foreign keys. */
  predicate SessionFrom(t: Tables, s: Session) {
    && s.committed.rules == t.rules && s.working.rules == t.rules
    && Grows(t, s.committed) && Grows(t, s.working)
    && ReferencesHold(s.committed) && ReferencesHold(s.working)
  }

  lemma {:induction false} ImportFilesKeepsSession(files: seq<(string, Source)>, t: Tables, s: Session)
    requires SessionFrom(t, s)
    ensures SessionFrom(t, ImportFiles(files, s))
  {
    if files != [] {
      FileAppliedGrows(PlanOf(files[0].1), s.working);
      ImportFilesKeepsSession(files[1..], t, FileStep(s, files[0].0, files[0].1));
    }
  }

  /** `import_licenses` never changes `rules`, keeps every existing row and
      keeps the foreign keys. */
  lemma LicenseImportGrows(files: seq<(string, Source)>, t: Tables)
    requires ReferencesHold(t)
    ensures var c := LicensesImported(files, t).committed;
      c.rules == t.rules && Grows(t, c) && ReferencesHold(c)
  {
    ImportFilesKeepsSession(files, t, Session(t, t, 0, 0, 0));
  }

  /** Run before the rules, the license import maps nothing on an empty
      store: the mapping rows need the rule rows first. */
  lemma LicensesBeforeRulesMapNothing(files: seq<(string, Source)>, t: Tables)
    requires t.rules == map[] && t.mappings == {}
    ensures LicensesImported(files, t).committed.mappings == {}
  {
    LicenseImportGrows(files, t);
  }

  /** The number of names the file filter lets through. */
  function CountLicenseFiles(files: seq<(string, Source)>): nat {
    if files == [] then 0
    else (if IsLicenseFileName(files[0].0) then 1 else 0) + CountLicenseFiles(files[1..])
  }

  /** Each file the filter lets through is processed once, and commits and
      new licenses never outnumber processed files. */
  lemma {:induction false} ImportFilesCounts(files: seq<(string, Source)>, s: Session)
    ensures var e := ImportFiles(files, s);
      && e.processed == s.processed + CountLicenseFiles(files)
      && e.commits - s.commits <= e.processed - s.processed
      && e.imported - s.imported <= e.processed - s.processed
      && s.commits <= e.commits && s.imported <= e.imported
  {
    if files != [] {
      ImportFilesCounts(files[1..], FileStep(s, files[0].0, files[0].1));
    }
  }

  /** A rule of the file that the loop inserts is in the committed `rules`
      table, and a key new to the table keeps the first such rule's row. */
  lemma RuleImportStores(source: Source, t: Tables, i: nat)
    requires RulesRun(source, t).Some?
    requires source.Parsed? && RuleItems(source.value).Some?
    requires i < |RuleItems(source.value).value|
    requires RuleActionOf(RuleItems(source.value).value[i]).Store?
    ensures var a := RuleActionOf(RuleItems(source.value).value[i]);
      && a.key in RulesRun(source, t).value.0.rules
      && (a.key !in t.rules && FirstStoreAt(Actions(RuleItems(source.value).value), i, a.key) ==>
            RulesRun(source, t).value.0.rules[a.key] == a.row)
  {
    var actions := Actions(RuleItems(source.value).value);
    ApplyRulesStores(actions, t, 0);
    ApplyRulesGrows(actions, t, 0);
    assert StoresAt(actions, i, actions[i].key);
  }

  /** The count `import_rules` reports is the number of rule keys it added. */
  lemma RulesImportCount(source: Source, t: Tables)
    requires RulesRun(source, t).Some?
    ensures var run := RulesRun(source, t).value;
      run.1 == |run.0.rules.Keys - t.rules.Keys|
  {
    ApplyRulesCount(Actions(RuleItems(source.value).value), t, 0);
  }

  /** A `.json` name whose first letter is not an `r` passes the filter. */
  lemma JsonNamePasses(name: string)
    requires EndsWith(name, ".json") && |name| > 0 && LowerChar(name[0]) != 'r'
    ensures IsLicenseFileName(name)
  {
    PrefixChar(Lower(name), "readme", 0);
  }

  const NoTables := Tables(map[], map[], {})

  /** Two complete rules on an empty store are both inserted and counted. */
  lemma RulesExample()
    ensures RulesRun(Parsed(JArr([
        JObj(map["id" := JStr("rule1"), "label" := JStr("Rule 1"), "description" := JStr("Desc 1"), "category" := JStr("permissions")]),
        JObj(map["id" := JStr("rule2"), "label" := JStr("Rule 2"), "category" := JStr("conditions")])])), NoTables)
      == Some((NoTables.(rules := map[
        "rule1" := RuleRow(JStr("Rule 1"), JStr("Desc 1"), JStr("permissions")),
        "rule2" := RuleRow(JStr("Rule 2"), JStr(""), JStr("conditions"))]), 2))
  {
    var r1 := JObj(map["id" := JStr("rule1"), "label" := JStr("Rule 1"), "description" := JStr("Desc 1"), "category" := JStr("permissions")]);
    var r2 := JObj(map["id" := JStr("rule2"), "label" := JStr("Rule 2"), "category" := JStr("conditions")]);
    assert RuleActionOf(r1) == Store("rule1", RuleRow(JStr("Rule 1"), JStr("Desc 1"), JStr("permissions")));
    assert RuleActionOf(r2) == Store("rule2", RuleRow(JStr("Rule 2"), JStr(""), JStr("conditions")));
    var actions := Actions([r1, r2]);
    var t1 := NoTables.(rules := map["rule1" := RuleRow(JStr("Rule 1"), JStr("Desc 1"), JStr("permissions"))]);
    var t2 := t1.(rules := t1.rules["rule2" := RuleRow(JStr("Rule 2"), JStr(""), JStr("conditions"))]);
    assert actions[1..][1..] == [];
    assert ApplyRules(actions, NoTables, 0) == ApplyRules(actions[1..], t1, 1);
    assert "rule2" !in t1.rules;
    assert ApplyRules(actions[1..], t1, 1) == ApplyRules([], t2, 2);
  }

  /** A license whose only rule is unknown is stored and committed once,
      with no mapping. */
  lemma UnknownRuleExample()
    ensures var s := LicensesImported([("TestLic.json", Parsed(JObj(map[
        "spdx_id" := JStr("TestLic"), "title" := JStr("Test License"), "url" := JStr("test.com"),
        "description" := JStr("Test desc"), "rules" := JArr([JStr("non_existent_rule")])])))], NoTables);
      && s.committed == NoTables.(licenses := map["TestLic" := LicenseRow(JStr("Test License"), JStr("test.com"), JStr("Test desc"))])
      && s.commits == 1 && s.processed == 1 && s.imported == 1
  {
    var d := map[
        "spdx_id" := JStr("TestLic"), "title" := JStr("Test License"), "url" := JStr("test.com"),
        "description" := JStr("Test desc"), "rules" := JArr([JStr("non_existent_rule")])];
    var row := LicenseRow(JStr("Test License"), JStr("test.com"), JStr("Test desc"));
    assert "TestLic.json"[|"TestLic.json"| - 5..] == ".json";
    JsonNamePasses("TestLic.json");
    assert LicenseUrl(d) == Some(JStr("test.com"));
    assert PlanOf(Parsed(JObj(d))) == Proceed(JStr("TestLic"), row, [JStr("non_existent_rule")]);
    var t1 := NoTables.(licenses := map["TestLic" := row]);
    assert MapKeys(JStr("TestLic"), [JStr("non_existent_rule")], t1) == MapResult(t1, false);
  }

  /** Without `title`, `description` or a truthy first link url, the row
      falls back to `name`, `summary` and `text_url`. */
  lemma FallbackFieldsExample()
    ensures PlanOf(Parsed(JObj(map[
        "spdx_id" := JStr("X"), "name" := JStr("X License"), "summary" := JStr("X summary"),
        "links" := JArr([JObj(map["url" := JStr("")])]), "text_url" := JStr("x.test")])))
      == Proceed(JStr("X"), LicenseRow(JStr("X License"), JStr("x.test"), JStr("X summary")), [])
  {
    var d := map[
        "spdx_id" := JStr("X"), "name" := JStr("X License"), "summary" := JStr("X summary"),
        "links" := JArr([JObj(map["url" := JStr("")])]), "text_url" := JStr("x.test")];
    assert LicenseUrl(d) == Some(JStr("x.test"));
    assert RuleKeys(d) == [];
  }

  /** Once its rule exists, a license's rule list becomes mapping rows. */
  lemma KnownRuleExample(t: Tables)
    requires "rule1" in t.rules && t.licenses == map[] && t.mappings == {}
    ensures var s := LicensesImported([("MIT.json", Parsed(JObj(map[
        "spdx_id" := JStr("MIT"), "title" := JStr("MIT License"), "url" := JStr("mit.test"),
        "description" := JStr("MIT desc"), "rules" := JArr([JStr("rule1")])])))], t);
      && s.committed.licenses == map["MIT" := LicenseRow(JStr("MIT License"), JStr("mit.test"), JStr("MIT desc"))]
      && s.committed.mappings == {("MIT", "rule1")}
      && s.commits == 1
  {
    var d := map[
        "spdx_id" := JStr("MIT"), "title" := JStr("MIT License"), "url" := JStr("mit.test"),
        "description" := JStr("MIT desc"), "rules" := JArr([JStr("rule1")])];
    var row := LicenseRow(JStr("MIT License"), JStr("mit.test"), JStr("MIT desc"));
    assert "MIT.json"[|"MIT.json"| - 5..] == ".json";
    JsonNamePasses("MIT.json");
    assert LicenseUrl(d) == Some(JStr("mit.test"));
    assert PlanOf(Parsed(JObj(d))) == Proceed(JStr("MIT"), row, [JStr("rule1")]);
    var t1 := t.(licenses := map["MIT" := row]);
    assert MapKeys(JStr("MIT"), [JStr("rule1")], t1) == MapResult(t1.(mappings := {("MIT", "rule1")}), false);
    var f: (string, Source) := ("MIT.json", Parsed(JObj(d)));
    var s0 := Session(t, t, 0, 0, 0);
    assert [f][1..] == [];
    assert ImportFiles([f], s0) == ImportFiles([], FileStep(s0, f.0, f.1));
  }

  /** A file whose rule list holds a list, which the driver cannot bind. */
  const PendingFile: (string, Source) :=
    ("A.json", Parsed(JObj(map["spdx_id" := JStr("A"), "title" := JStr("A License"), "url" := JStr("a.test"),
      "description" := JStr("A desc"), "rules" := JArr([JArr([])])])))
  const PendingRow := LicenseRow(JStr("A License"), JStr("a.test"), JStr("A desc"))
  const LaterFile: (string, Source) :=
    ("B.json", Parsed(JObj(map["spdx_id" := JStr("B"), "title" := JStr("B License"), "url" := JStr("b.test"),
      "description" := JStr("B desc")])))
  const LaterRow := LicenseRow(JStr("B License"), JStr("b.test"), JStr("B desc"))

  lemma PendingPlan()
    ensures PlanOf(PendingFile.1) == Proceed(JStr("A"), PendingRow, [JArr([])])
  {
    assert LicenseUrl(PendingFile.1.value.fields) == Some(JStr("a.test"));
  }

  lemma LaterPlan()
    ensures PlanOf(LaterFile.1) == Proceed(JStr("B"), LaterRow, [])
  {
    var d := LaterFile.1.value.fields;
    assert RuleKeys(d) == [];
    assert LicenseUrl(d) == Some(JStr("b.test"));
  }

  lemma PendingFileStep(s: Session)
    ensures FileStep(s, PendingFile.0, PendingFile.1) ==
      s.(working := InsertLicenseRow(s.working, "A", PendingRow), processed := s.processed + 1,
         imported := s.imported + if "A" in s.working.licenses then 0 else 1)
  {
    assert "A.json"[|"A.json"| - 5..] == ".json";
    JsonNamePasses("A.json");
    PendingPlan();
    var t1 := InsertLicenseRow(s.working, "A", PendingRow);
    assert MapKeys(JStr("A"), [JArr([])], t1) == MapResult(t1, true);
  }

  lemma LaterFileStep(s: Session)
    ensures var w := InsertLicenseRow(s.working, "B", LaterRow);
      FileStep(s, LaterFile.0, LaterFile.1) ==
        Session(w, w, s.commits + 1, s.processed + 1, s.imported + if "B" in s.working.licenses then 0 else 1)
  {
    assert "B.json"[|"B.json"| - 5..] == ".json";
    JsonNamePasses("B.json");
    LaterPlan();
  }

  /** Rows of a file whose mapping loop raises stay pending: a later file's
      commit stores them, although their own file was never committed. */
  lemma PendingRowsCommittedLater()
    ensures "A" !in LicensesImported([PendingFile], NoTables).committed.licenses
    ensures "A" in LicensesImported([PendingFile, LaterFile], NoTables).committed.licenses
  {
    var s0 := Session(NoTables, NoTables, 0, 0, 0);
    PendingFileStep(s0);
    var s1 := FileStep(s0, PendingFile.0, PendingFile.1);
    assert [PendingFile][1..] == [];
    assert ImportFiles([PendingFile], s0) == ImportFiles([], s1);
    LaterFileStep(s1);
    assert [PendingFile, LaterFile][1..] == [LaterFile];
    assert [LaterFile][1..] == [];
    assert ImportFiles([PendingFile, LaterFile], s0) == ImportFiles([LaterFile], s1);
    assert ImportFiles([LaterFile], s1) == ImportFiles([], FileStep(s1, LaterFile.0, LaterFile.1));
  }

  // ---------- import_all_data ----------

  function TablesAfterAll(rulesSource: Source, listing: Option<seq<(string, Source)>>, t: Tables): Tables {
    TablesAfterLicenses(listing, TablesAfterRules(rulesSource, t))
  }

  /** The whole import keeps the foreign keys and every existing row. */
  lemma ImportAllGrows(rulesSource: Source, listing: Option<seq<(string, Source)>>, t: Tables)
    requires ReferencesHold(t)
    ensures Grows(t, TablesAfterAll(rulesSource, listing, t)) && ReferencesHold(TablesAfterAll(rulesSource, listing, t))
  {
    var r := TablesAfterRules(rulesSource, t);
    RulesImportGrows(rulesSource, t);
    if listing.Some? {
      LicenseImportGrows(listing.value, r);
    }
  }

  // ---------- the store ----------

  /** The database: what is committed and what the open connection sees. */
  class Database {
    var committed: Tables
    var working: Tables
    var commits: nat

    constructor (t: Tables)
      ensures committed == t && working == t && commits == 0
    {
      committed, working, commits := t, t, 0;
    }

    /** Opening a connection, or closing one, leaves only committed rows. */
    method Reset()
      modifies this
      ensures working == committed == old(committed) && commits == old(commits)
    {
      working := committed;
    }

    method Commit()
      modifies this
      ensures committed == working == old(working) && commits == old(commits) + 1
    {
      committed := working;
      commits := commits + 1;
    }

    /** INSERT OR IGNORE INTO rules; `added` is a row count above zero. */
    method InsertRule(key: string, row: RuleRow) returns (added: bool)
      modifies this
      ensures added <==> key !in old(working).rules
      ensures working == InsertRuleRow(old(working), key, row)
      ensures committed == old(committed) && commits == old(commits)
    {
      added := key !in working.rules;
      if added {
        working := working.(rules := working.rules[key := row]);
      }
    }

    /** INSERT OR IGNORE INTO licenses. */
    method InsertLicense(id: string, row: LicenseRow) returns (added: bool)
      modifies this
      ensures added <==> id !in old(working).licenses
      ensures working == InsertLicenseRow(old(working), id, row)
      ensures committed == old(committed) && commits == old(commits)
    {
      added := id !in working.licenses;
      if added {
        working := working.(licenses := working.licenses[id := row]);
      }
    }

    /** INSERT OR IGNORE INTO license_rules_mapping; `ok` is false on a
        foreign-key failure. */
    method InsertMapping(id: string, ruleKey: string) returns (ok: bool)
      modifies this
      ensures ok <==> id in old(working).licenses && ruleKey in old(working).rules
      ensures working == InsertMappingRow(old(working), id, ruleKey)
      ensures committed == old(committed) && commits == old(commits)
    {
      ok := id in working.licenses && ruleKey in working.rules;
      if ok {
        working := working.(mappings := working.mappings + {(id, ruleKey)});
      }
    }

    /** `import_rules`: the count of new rules when it commits, `None` when
        the file is missing, undecodable, or the loop fails. */
    method ImportRules(source: Source) returns (imported: Option<nat>)
      modifies this
      ensures var run := RulesRun(source, old(committed));
        && imported == (if run.Some? then Some(run.value.1) else None)
        && commits == old(commits) + (if run.Some? then 1 else 0)
      ensures committed == TablesAfterRules(source, old(committed)) && working == committed
    {
      Reset();
      if !source.Parsed? || RuleItems(source.value).None? {
        return None;
      }
      var items := RuleItems(source.value).value;
      ghost var actions := Actions(items);
      var count := 0;
      var i := 0;
      assert actions[0..] == actions;
      while i < |items|
        invariant 0 <= i <= |items|
        invariant committed == old(committed) && commits == old(commits)
        invariant ApplyRules(actions[i..], working, count) == ApplyRules(actions, old(committed), 0)
      {
        assert actions[i..][1..] == actions[i + 1..];
        var action := RuleActionOf(items[i]);
        if action.Fails? {
          Reset();
          return None;
        } else if action.Store? {
          var added := InsertRule(action.key, action.row);
          if added {
            count := count + 1;
          }
        }
        i := i + 1;
      }
      Commit();
      Reset();
      imported := Some(count);
    }

    /** The mapping loop of one license file. */
    method MapRuleKeys(id: Json, keys: seq<Json>) returns (raised: bool)
      modifies this
      ensures MapKeys(id, keys, old(working)) == MapResult(working, raised)
      ensures committed == old(committed) && commits == old(commits)
    {
      var j := 0;
      assert keys[0..] == keys;
      while j < |keys|
        invariant 0 <= j <= |keys|
        invariant committed == old(committed) && commits == old(commits)
        invariant MapKeys(id, keys[j..], working) == MapKeys(id, keys, old(working))
      {
        assert keys[j..][1..] == keys[j + 1..];
        var key := keys[j];
        if !Bindable(key) {
          return true;
        }
        if id.JStr? && key.JStr? {
          var ok := InsertMapping(id.s, key.s);
        }
        j := j + 1;
      }
      raised := false;
    }

    /** The body of the per-file `try` for one decoded file: the license
        insert, the mapping loop, and the commit when the loop completes. */
    method ImportLicenseFile(plan: LicensePlan) returns (inserted: bool)
      modifies this
      ensures var r := FileApplied(plan, old(working));
        && working == r.working && inserted == r.inserted
        && committed == (if r.committed then r.working else old(committed))
        && commits == old(commits) + (if r.committed then 1 else 0)
    {
      inserted := false;
      if plan.Proceed? {
        if plan.id.JStr? {
          inserted := InsertLicense(plan.id.s, plan.row);
        }
        var raised := MapRuleKeys(plan.id, plan.keys);
        if !raised {
          Commit();
        }
      }
    }

    /** One entry of the directory listing: the name filter, then the file's
        `try` body; `counted` is whether it was processed. */
    method ImportListedFile(ghost s: Session, name: string, src: Source) returns (counted: bool, inserted: bool)
      requires s.committed == committed && s.working == working
      modifies this
      ensures var e := FileStep(s, name, src);
        && e.committed == committed && e.working == working
        && e.commits == s.commits + (commits - old(commits)) && old(commits) <= commits
        && e.processed == s.processed + (if counted then 1 else 0)
        && e.imported == s.imported + (if inserted then 1 else 0)
    {
      counted, inserted := false, false;
      if IsLicenseFileName(name) {
        counted := true;
        inserted := ImportLicenseFile(PlanOf(src));
      }
    }

    /** `import_licenses` over a directory listing; `None` is a missing
        directory, which stops it before any insert or commit. */
    method ImportLicenses(listing: Option<seq<(string, Source)>>) returns (processed: nat, imported: nat)
      modifies this
      ensures listing.None? ==> commits == old(commits) && processed == 0 && imported == 0
      ensures listing.Some? ==>
        var s := LicensesImported(listing.value, old(committed));
        commits == old(commits) + s.commits && processed == s.processed && imported == s.imported
      ensures committed == TablesAfterLicenses(listing, old(committed)) && working == committed
    {
      Reset();
      if listing.None? {
        return 0, 0;
      }
      var files := listing.value;
      processed, imported := 0, 0;
      ghost var s := Session(committed, working, 0, 0, 0);
      var i := 0;
      assert files[0..] == files;
      while i < |files|
        invariant 0 <= i <= |files|
        invariant old(commits) <= commits
        invariant s == Session(committed, working, commits - old(commits), processed, imported)
        invariant ImportFiles(files[i..], s) == LicensesImported(files, old(committed))
      {
        ImportFilesStep(files, i, s);
        var (name, src) := files[i];
        var counted, inserted := ImportListedFile(s, name, src);
        s := FileStep(s, name, src);
        if counted {
          processed := processed + 1;
        }
        if inserted {
          imported := imported + 1;
        }
        i := i + 1;
      }
      assert files[i..] == [];
      Reset();
    }

    /** `import_all_data`: rules strictly before licenses. */
    method ImportAllData(rulesSource: Source, listing: Option<seq<(string, Source)>>)
      modifies this
      ensures committed == TablesAfterAll(rulesSource, listing, old(committed)) && working == committed
    {
      var _ := ImportRules(rulesSource);
      var _, _ := ImportLicenses(listing);
    }
  }
}
