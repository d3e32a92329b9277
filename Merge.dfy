/** The merge engine of scripts/merge_spdx_with_choosealicense.py: the
    front-matter reading of `load_choosealicense_metadata`, the join
    `merge_licenses`, and the output file name of `main`. */
module MergeLicenses {
  import opened Values
  import opened Text

  /** What the ChooseALicense loader keeps of a license: its three list
      fields, passed through as decoded. */
  datatype CommunityRecord = CommunityRecord(permissions: Json, conditions: Json, limitations: Json)

  /** One output document of the merge. */
  datatype MergedRecord = MergedRecord(
    spdx: Json,
    categorized: bool,
    permissions: Json,
    conditions: Json,
    limitations: Json)

  const EmptyList: Json := JArr([])

  // ---------- load_choosealicense_metadata ----------

  const Delimiter: string := "---"

  /** `content.split("---")[1:3][0]` for content that starts with `---`:
      the text between the first and the second delimiter, or to the end
      when there is no second one. */
  function FrontMatter(content: string): (r: Option<string>)
    ensures r.None? <==> !StartsWith(content, Delimiter)
    ensures r.Some? ==>
      && StartsWith(content, Delimiter + r.value)
      && (forall k :: |Delimiter| <= k < |Delimiter| + |r.value| ==> !OccursAt(content, Delimiter, k))
      && (|Delimiter| + |r.value| == |content| || OccursAt(content, Delimiter, |Delimiter| + |r.value|))
  {
    if StartsWith(content, Delimiter) then
      var j := FindFrom(content, Delimiter, |Delimiter|);
      assert content[..|Delimiter| + (j - |Delimiter|)] == Delimiter + content[|Delimiter|..j];
      Some(content[|Delimiter|..j])
    else None
  }

  /** The front matter is the only text with those three properties: it
      follows the opening delimiter, holds no delimiter, and runs to the
      next delimiter or to the end. */
  lemma FrontMatterUnique(content: string, fm: string)
    requires StartsWith(content, Delimiter + fm)
    requires forall k :: |Delimiter| <= k < |Delimiter| + |fm| ==> !OccursAt(content, Delimiter, k)
    requires |Delimiter| + |fm| == |content| || OccursAt(content, Delimiter, |Delimiter| + |fm|)
    ensures FrontMatter(content) == Some(fm)
  {
    PrefixOfPrefix(content, Delimiter + fm, Delimiter);
    var r := FrontMatter(content);
    assert r.Some?;
    var end, j := |Delimiter| + |fm|, |Delimiter| + |r.value|;
    assert j == end;
    assert content[..end] == Delimiter + fm;
    assert content[..j] == Delimiter + r.value;
    assert fm == content[..end][|Delimiter|..];
  }

  /** The outcome of reading one ChooseALicense file. */
  datatype Metadata =
    | Skipped                                  // no front matter, or no `spdx-id` usable as a text key
    | Entry(id: string, record: CommunityRecord)
    | Crashed                                  // YAML error, front matter that is not a mapping, or an unhashable `spdx-id`

  /** A YAML value Python cannot use as a dictionary key. */
  predicate Unhashable(v: Json) {
    v.JArr? || v.JObj?
  }

  /** One file's contribution; `parseYaml` stands for `yaml.safe_load`, with
      `None` for a YAML error. */
  function MetadataOf(content: string, parseYaml: string -> Option<Json>): (r: Metadata)
    ensures !r.Skipped? ==> StartsWith(content, Delimiter)
    ensures r.Crashed? <==>
      && StartsWith(content, Delimiter)
      && var data := parseYaml(FrontMatter(content).value);
        data.None? || !data.value.JObj?
        || (Truthy(Get(data.value.fields, "spdx-id")) && Unhashable(Get(data.value.fields, "spdx-id")))
    ensures r.Entry? <==>
      && StartsWith(content, Delimiter)
      && var data := parseYaml(FrontMatter(content).value);
        data.Some? && data.value.JObj?
        && Get(data.value.fields, "spdx-id").JStr? && Truthy(Get(data.value.fields, "spdx-id"))
    ensures r.Entry? ==> r.id != [] && parseYaml(FrontMatter(content).value).Some?
    ensures r.Entry? ==>
      var data := parseYaml(FrontMatter(content).value).value;
      && data.JObj?
      && Get(data.fields, "spdx-id") == JStr(r.id)
      && r.record.permissions == GetOr(data.fields, "permissions", EmptyList)
      && r.record.conditions == GetOr(data.fields, "conditions", EmptyList)
      && r.record.limitations == GetOr(data.fields, "limitations", EmptyList)
  {
    match FrontMatter(content)
    case None => Skipped
    case Some(fm) =>
      match parseYaml(fm)
      case None => Crashed
      case Some(data) =>
        if !data.JObj? then Crashed
        else
          var spdxId := Get(data.fields, "spdx-id");
          if !Truthy(spdxId) then Skipped
          else if Unhashable(spdxId) then Crashed
          else if spdxId.JStr? then
            Entry(spdxId.s, CommunityRecord(
              GetOr(data.fields, "permissions", EmptyList),
              GetOr(data.fields, "conditions", EmptyList),
              GetOr(data.fields, "limitations", EmptyList)))
          else Skipped
  }

  /** The outcome of each file, in glob order. */
  function Outcomes(files: seq<string>, parseYaml: string -> Option<Json>): (r: seq<Metadata>)
    ensures |r| == |files|
    ensures forall i :: 0 <= i < |files| ==> r[i] == MetadataOf(files[i], parseYaml)
  {
    seq(|files|, i requires 0 <= i < |files| => MetadataOf(files[i], parseYaml))
  }

  /** The loader's dictionary after the given outcomes: later files
      overwrite earlier ones with the same id, and a crash ends the load. */
  function Collect(outcomes: seq<Metadata>): Option<map<string, CommunityRecord>> {
    if outcomes == [] then Some(map[])
    else
      match Collect(outcomes[..|outcomes| - 1])
      case None => None
      case Some(licenses) =>
        match outcomes[|outcomes| - 1]
        case Crashed => None
        case Skipped => Some(licenses)
        case Entry(id, record) => Some(licenses[id := record])
  }

  /** What `load_choosealicense_metadata` returns for these file contents,
      or `None` when it raises. */
  function LoadedFrom(files: seq<string>, parseYaml: string -> Option<Json>): Option<map<string, CommunityRecord>> {
    Collect(Outcomes(files, parseYaml))
  }

  predicate DefinesAt(outcomes: seq<Metadata>, i: int, id: string) {
    0 <= i < |outcomes| && outcomes[i].Entry? && outcomes[i].id == id
  }

  /** `load_choosealicense_metadata`. */
  method LoadChooseALicenseMetadata(files: seq<string>, parseYaml: string -> Option<Json>)
    returns (licenses: Option<map<string, CommunityRecord>>)
    ensures licenses == LoadedFrom(files, parseYaml)
  {
    ghost var outcomes := Outcomes(files, parseYaml);
    var acc: map<string, CommunityRecord> := map[];
    var i := 0;
    while i < |files|
      invariant 0 <= i <= |files|
      invariant Collect(outcomes[..i]) == Some(acc)
    {
      assert outcomes[..i + 1][..i] == outcomes[..i];
      var metadata := MetadataOf(files[i], parseYaml);
      if metadata.Crashed? {
        CrashSticks(outcomes, i + 1);
        return None;
      } else if metadata.Entry? {
        acc := acc[metadata.id := metadata.record];
      }
      i := i + 1;
    }
    assert outcomes[..i] == outcomes;
    licenses := Some(acc);
  }

  /** Once a file crashes the load, later files cannot undo it. */
  lemma {:induction false} CrashSticks(outcomes: seq<Metadata>, n: nat)
    requires 0 < n <= |outcomes|
    requires Collect(outcomes[..n]).None?
    ensures Collect(outcomes).None?
    decreases |outcomes| - n
  {
    if n < |outcomes| {
      assert outcomes[..n + 1][..n] == outcomes[..n];
      CrashSticks(outcomes, n + 1);
    } else {
      assert outcomes[..n] == outcomes;
    }
  }

  /** A completed load holds exactly the ids some file defines. */
  lemma {:induction false} CollectKeys(outcomes: seq<Metadata>)
    requires Collect(outcomes).Some?
    ensures forall id :: id in Collect(outcomes).value <==> exists i :: DefinesAt(outcomes, i, id)
  {
    if outcomes != [] {
      var init, last := outcomes[..|outcomes| - 1], |outcomes| - 1;
      CollectKeys(init);
      forall id
        ensures id in Collect(outcomes).value <==> exists i :: DefinesAt(outcomes, i, id)
      {
        if id in Collect(outcomes).value {
          if !DefinesAt(outcomes, last, id) {
            var i :| DefinesAt(init, i, id);
            assert DefinesAt(outcomes, i, id);
          }
        } else {
          forall i | 0 <= i < last ensures !DefinesAt(outcomes, i, id) {
            assert !DefinesAt(init, i, id);
          }
        }
      }
    }
  }

  /** Each id carries the record of the last file that defines it. */
  lemma {:induction false} CollectLastWins(outcomes: seq<Metadata>, i: int, id: string)
    requires Collect(outcomes).Some?
    requires DefinesAt(outcomes, i, id)
    requires forall j :: i < j < |outcomes| ==> !DefinesAt(outcomes, j, id)
    ensures id in Collect(outcomes).value && Collect(outcomes).value[id] == outcomes[i].record
  {
    var init, last := outcomes[..|outcomes| - 1], |outcomes| - 1;
    if i < last {
      assert Collect(init).Some?;
      assert forall j :: 0 <= j < |init| ==> init[j] == outcomes[j];
      assert DefinesAt(init, i, id);
      forall j | i < j < |init| ensures !DefinesAt(init, j, id) {
        assert !DefinesAt(outcomes, j, id);
      }
      CollectLastWins(init, i, id);
      assert !DefinesAt(outcomes, last, id);
    }
  }

  /** The load crashes exactly when some file crashes it. */
  lemma {:induction false} CollectCrashes(outcomes: seq<Metadata>)
    ensures Collect(outcomes).None? <==> exists i :: 0 <= i < |outcomes| && outcomes[i].Crashed?
  {
    if outcomes != [] {
      var init := outcomes[..|outcomes| - 1];
      CollectCrashes(init);
      assert forall i :: 0 <= i < |init| ==> init[i] == outcomes[i];
    }
  }

  // ---------- merge_licenses ----------

  /** The merged document of one SPDX license. */
  function MergedRecordOf(spdxInfo: Json, community: map<string, CommunityRecord>, id: string): MergedRecord {
    if id in community then
      MergedRecord(spdxInfo, true, community[id].permissions, community[id].conditions, community[id].limitations)
    else
      MergedRecord(spdxInfo, false, EmptyList, EmptyList, EmptyList)
  }

  /** `merge_licenses`: SPDX decides which ids exist, `categorized` records
      whether a community entry exists, and the uncategorized-only switch
      drops the categorized ones. */
  method MergeLicenses(spdx: map<string, Json>, community: map<string, CommunityRecord>, uncategorizedOnly: bool)
    returns (merged: map<string, MergedRecord>)
    ensures merged.Keys <= spdx.Keys
    ensures !uncategorizedOnly ==> merged.Keys == spdx.Keys
    ensures uncategorizedOnly ==> merged.Keys == spdx.Keys - community.Keys
    ensures forall id :: id in merged ==> merged[id].spdx == spdx[id]
    ensures forall id :: id in merged ==> (merged[id].categorized <==> id in community)
    ensures forall id :: id in merged && id in community ==>
      && merged[id].permissions == community[id].permissions
      && merged[id].conditions == community[id].conditions
      && merged[id].limitations == community[id].limitations
    ensures forall id :: id in merged && id !in community ==>
      merged[id].permissions == merged[id].conditions == merged[id].limitations == EmptyList
  {
    merged := map[];
    var remaining := spdx.Keys;
    while remaining != {}
      invariant remaining <= spdx.Keys
      invariant forall id :: id in merged <==>
        id in spdx && id !in remaining && !(uncategorizedOnly && id in community)
      invariant forall id :: id in merged ==> merged[id] == MergedRecordOf(spdx[id], community, id)
      decreases |remaining|
    {
      var licenseId :| licenseId in remaining;
      remaining := remaining - {licenseId};
      var chooseData := if licenseId in community then Some(community[licenseId]) else None;
      var categorized := chooseData.Some?;
      if uncategorizedOnly && categorized {
        continue;
      }
      var record := if categorized then
          MergedRecord(spdx[licenseId], true, chooseData.value.permissions, chooseData.value.conditions, chooseData.value.limitations)
        else
          MergedRecord(spdx[licenseId], false, EmptyList, EmptyList, EmptyList);
      merged := merged[licenseId := record];
    }
    assert forall id :: id in merged <==> id in spdx && !(uncategorizedOnly && id in community);
    forall id | id in merged
      ensures merged[id].spdx == spdx[id]
      ensures merged[id].categorized <==> id in community
    {
      assert merged[id] == MergedRecordOf(spdx[id], community, id);
    }
  }

  // ---------- output file names ----------

  /** `license_id.replace("/", "_")`. */
  function SafeFileName(licenseId: string): (r: string)
    ensures |r| == |licenseId|
    ensures '/' !in r
    ensures forall i :: 0 <= i < |r| && licenseId[i] != '/' ==> r[i] == licenseId[i]
    ensures forall i :: 0 <= i < |r| && licenseId[i] == '/' ==> r[i] == '_'
  {
    if licenseId == [] then []
    else [if licenseId[0] == '/' then '_' else licenseId[0]] + SafeFileName(licenseId[1..])
  }

  /** The file one merged record is written to. */
  function OutputFileName(licenseId: string): (r: string)
    ensures |r| == |licenseId| + 5 && EndsWith(r, ".json")
    ensures '/' !in r
  {
    SafeFileName(licenseId) + ".json"
  }

  /** Ids free of `_` never share a file name. */
  lemma SafeFileNameInjective(a: string, b: string)
    requires '_' !in a && '_' !in b
    requires SafeFileName(a) == SafeFileName(b)
    ensures a == b
  {
    assert |a| == |b|;
    forall i | 0 <= i < |a| ensures a[i] == b[i] {
      assert SafeFileName(a)[i] == SafeFileName(b)[i];
    }
  }

  /** Ids that differ only in `/` against `_` are written to the same file. */
  lemma SafeFileNameCollision()
    ensures "A/B" != "A_B" && OutputFileName("A/B") == OutputFileName("A_B")
  {
    assert SafeFileName("A/B") == "A_B";
    assert SafeFileName("A_B") == "A_B";
  }
}
