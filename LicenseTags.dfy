/** The tag registry validator and the tag classifier of
    scripts/licenses_tags.py: `TagRegistry.is_valid`, `get_group_meta`,
    `get_tag_info`, the first-match-wins cascade `build_tags`, and the
    filter-and-store step of `apply_tags_to_file`. */
module LicenseTags {
  import opened Values
  import opened Text

  // ---------- Tag registry ----------

  /** The decoded tags.json: group name to the group's value, which is a
      mapping from tag key (or the reserved `_group`) to metadata when the
      file is well formed. */
  type Registry = map<string, Json>

  const ReservedKey: string := "_group"

  /** The three parts of Python's `s.partition(sep)`. */
  datatype Parts = Parts(head: string, found: bool, tail: string)

  function Partition(s: string, sep: char): (p: Parts)
    ensures sep !in p.head
    ensures p.found ==> s == p.head + [sep] + p.tail
    ensures !p.found ==> p.head == s && p.tail == []
  {
    if s == [] then Parts([], false, [])
    else if s[0] == sep then Parts([], true, s[1..])
    else
      var p := Partition(s[1..], sep);
      Parts([s[0]] + p.head, p.found, p.tail)
  }

  /** Only the first separator splits: everything after it, further
      separators included, is the tail. */
  lemma {:induction false} PartitionAtFirst(head: string, sep: char, tail: string)
    requires sep !in head
    ensures Partition(head + [sep] + tail, sep) == Parts(head, true, tail)
  {
    if head != [] {
      assert (head + [sep] + tail)[1..] == head[1..] + [sep] + tail;
      PartitionAtFirst(head[1..], sep, tail);
    }
  }

  /** `TagRegistry.is_valid`. */
  predicate IsValid(reg: Registry, tag: string) {
    var p := Partition(tag, ':');
    var group, key := p.head, p.tail;
    if group == [] || key == [] then false
    else if !(group in reg && reg[group].JObj?) then false
    else if key == ReservedKey then false
    else key in reg[group].fields
  }

  /** A tag without a colon is never valid. */
  lemma IsValidNeedsColon(reg: Registry, tag: string)
    requires ':' !in tag
    ensures !IsValid(reg, tag)
  {
  }

  /** `is_valid` on `group:key`, where `key` may itself hold colons: valid
      exactly when both parts are non-empty, the group is a mapping in the
      registry, the key is not the reserved `_group`, and the key is in the
      group's mapping. */
  lemma IsValidSplit(reg: Registry, group: string, key: string)
    requires ':' !in group
    ensures IsValid(reg, group + ":" + key) <==>
      && group != []
      && key != []
      && group in reg && reg[group].JObj?
      && key != ReservedKey
      && key in reg[group].fields
  {
    PartitionAtFirst(group, ':', key);
  }

  /** `TagRegistry.get_group_meta`: the `_group` entry of a group, when the
      group is a mapping and that entry is itself a mapping. */
  function GetGroupMeta(reg: Registry, group: string): (r: Option<map<string, Json>>)
    ensures r.Some? <==>
      group in reg && reg[group].JObj? && ReservedKey in reg[group].fields
      && reg[group].fields[ReservedKey].JObj?
    ensures r.Some? ==> r.value == reg[group].fields[ReservedKey].fields
  {
    if group in reg && reg[group].JObj? then
      var groupDict := reg[group].fields;
      if ReservedKey in groupDict && groupDict[ReservedKey].JObj? then Some(groupDict[ReservedKey].fields)
      else None
    else None
  }

  /** `TagRegistry.get_tag_info`. Unlike `is_valid`, it does not reject empty
      parts or the reserved key. */
  function GetTagInfo(reg: Registry, tag: string): Option<map<string, Json>> {
    var p := Partition(tag, ':');
    var group, key := p.head, p.tail;
    if group in reg && reg[group].JObj? then
      var groupDict := reg[group].fields;
      if key in groupDict && groupDict[key].JObj? then Some(groupDict[key].fields) else None
    else None
  }

  /** For a valid tag, `get_tag_info` finds its entry, whenever that entry is
      a mapping. */
  lemma TagInfoOfValidTag(reg: Registry, group: string, key: string)
    requires ':' !in group
    ensures IsValid(reg, group + ":" + key) ==>
      && group in reg && reg[group].JObj? && key in reg[group].fields
      && (GetTagInfo(reg, group + ":" + key).Some? <==> reg[group].fields[key].JObj?)
      && (reg[group].fields[key].JObj? ==>
            GetTagInfo(reg, group + ":" + key) == Some(reg[group].fields[key].fields))
  {
    PartitionAtFirst(group, ':', key);
  }

  /** `group:_group` is never a valid tag, yet `get_tag_info` on it returns
      exactly the group metadata. */
  lemma ReservedKeyOnlyMeta(reg: Registry, group: string)
    requires ':' !in group
    ensures !IsValid(reg, group + ":" + ReservedKey)
    ensures GetTagInfo(reg, group + ":" + ReservedKey) == GetGroupMeta(reg, group)
  {
    PartitionAtFirst(group, ':', ReservedKey);
  }

  // ---------- Tag heuristics ----------

  predicate IsStatusTag(t: string) { StartsWith(t, "spdx:") }
  predicate IsLicenseTag(t: string) { StartsWith(t, "license:") }

  predicate NoDuplicates(s: seq<string>) {
    forall i, j :: 0 <= i < j < |s| ==> s[i] != s[j]
  }

  /** The SPDX status tags, in their fixed order. */
  function StatusTags(osi: bool, fsf: bool, deprecated: bool): seq<string> {
    (if osi then ["spdx:osi-approved"] else [])
    + (if fsf then ["spdx:fsf-free"] else [])
    + (if deprecated then ["spdx:deprecated"] else [])
  }

  /** Position of a status tag in the fixed order. */
  function StatusRank(t: string): nat {
    if t == "spdx:osi-approved" then 0 else if t == "spdx:fsf-free" then 1 else 2
  }

  /** Each status tag is there exactly when its flag is set, they come in the
      order osi-approved, fsf-free, deprecated, and no other tag is there. */
  lemma StatusTagsFacts(osi: bool, fsf: bool, deprecated: bool)
    ensures var s := StatusTags(osi, fsf, deprecated);
      && ("spdx:osi-approved" in s <==> osi)
      && ("spdx:fsf-free" in s <==> fsf)
      && ("spdx:deprecated" in s <==> deprecated)
      && (forall i :: 0 <= i < |s| ==> IsStatusTag(s[i]))
      && (forall i, j :: 0 <= i < j < |s| ==> StatusRank(s[i]) < StatusRank(s[j]))
  {
    var s := StatusTags(osi, fsf, deprecated);
    forall i | 0 <= i < |s| ensures IsStatusTag(s[i]) {
      assert s[i] in {"spdx:osi-approved", "spdx:fsf-free", "spdx:deprecated"};
    }
  }

  /** The license families of the cascade, in no particular order. */
  datatype Family =
    | PublicDomain | CreativeCommons | OpenDataCommons | GovernmentOpen
    | Gpl | Agpl | Lgpl | WeakCopyleft | Documentation | Permissive

  const PublicDomainIds: set<string> := {"CC0-1.0", "UNLICENSE", "0BSD"}

  /** The guard of a family's branch, on the upper-cased identifier. */
  predicate Matches(f: Family, sid: string) {
    match f
    case PublicDomain => sid in PublicDomainIds
    case CreativeCommons => StartsWith(sid, "CC-")
    case OpenDataCommons => StartsWith(sid, "ODBL") || StartsWith(sid, "ODC-") || StartsWith(sid, "PDDL")
    case GovernmentOpen => StartsWith(sid, "OGL-") || StartsWith(sid, "NLOD-") || StartsWith(sid, "ETALAB-")
    case Gpl => StartsWith(sid, "GPL-")
    case Agpl => StartsWith(sid, "AGPL-")
    case Lgpl => StartsWith(sid, "LGPL-")
    case WeakCopyleft => StartsWith(sid, "MPL-") || StartsWith(sid, "EPL-") || StartsWith(sid, "CDDL-")
    case Documentation => StartsWith(sid, "GFDL-")
    case Permissive =>
      StartsWith(sid, "MIT") || StartsWith(sid, "BSD-") || StartsWith(sid, "APACHE-")
      || StartsWith(sid, "ISC") || StartsWith(sid, "ZLIB")
  }

  /** The tags a family's branch appends after the status tags. */
  function BranchTags(f: Family, sid: string): seq<string> {
    match f
    case PublicDomain =>
      ["license:public-domain", "copyleft:none", "domain:content", "domain:data"]
    case CreativeCommons =>
      CreativeCommonsTags(Contains(sid, "-BY-"), Contains(sid, "-SA-"),
        (StartsWith(sid, "CC-BY-") || StartsWith(sid, "CC-BY-SA-")) && EndsWith(sid, "-4.0"))
    case OpenDataCommons =>
      ["license:open-data-commons", "family:ODC", "domain:data"]
      + (if StartsWith(sid, "ODBL") || StartsWith(sid, "ODC-BY")
         then ["notes:attribution-required", "notes:share-alike"] else [])
    case GovernmentOpen =>
      ["license:government-open-license", "domain:data", "domain:content",
       "notes:government-open-license", "notes:attribution-required"]
    case Gpl => ["license:open-source", "family:GPL", "domain:software", "copyleft:strong"]
    case Agpl => ["license:open-source", "family:AGPL", "domain:software", "copyleft:network"]
    case Lgpl => ["license:open-source", "family:LGPL", "domain:software", "copyleft:weak"]
    case WeakCopyleft => ["license:open-source", "domain:software", "copyleft:weak"]
    case Documentation => ["license:open-source", "domain:documentation", "domain:content"]
    case Permissive => ["license:open-source", "domain:software", "copyleft:permissive"]
  }

  /** What an identifier that no branch claims receives. */
  const FallbackTags: seq<string> := ["license:open-source", "domain:software"]

  /** The family part of `build_tags`: branches tried in source order, the
      first whose guard holds returns. */
  function FamilyTags(sid: string): seq<string> {
    if Matches(PublicDomain, sid) then BranchTags(PublicDomain, sid)
    else if Matches(CreativeCommons, sid) then BranchTags(CreativeCommons, sid)
    else if Matches(OpenDataCommons, sid) then BranchTags(OpenDataCommons, sid)
    else if Matches(GovernmentOpen, sid) then BranchTags(GovernmentOpen, sid)
    else if Matches(Gpl, sid) then BranchTags(Gpl, sid)
    else if Matches(Agpl, sid) then BranchTags(Agpl, sid)
    else if Matches(Lgpl, sid) then BranchTags(Lgpl, sid)
    else if Matches(WeakCopyleft, sid) then BranchTags(WeakCopyleft, sid)
    else if Matches(Documentation, sid) then BranchTags(Documentation, sid)
    else if Matches(Permissive, sid) then BranchTags(Permissive, sid)
    else FallbackTags
  }

  /** The status tags `build_tags` derives from a record's flags. */
  function StatusOf(info: map<string, Json>): seq<string> {
    StatusTags(Truthy(Get(info, "isOsiApproved")), Truthy(Get(info, "isFsfLibre")),
               Truthy(Get(info, "isDeprecatedLicenseId")))
  }

  /** `build_tags(spdx_id, spdx_info)`: status tags from the three flags'
      truthiness, then one family's tags for the upper-cased identifier. */
  function BuildTags(spdxId: string, info: map<string, Json>): seq<string> {
    StatusOf(info) + FamilyTags(Upper(spdxId))
  }

  // ---------- The cascade as an ordered table ----------

  /** The branch order of the source, as data. */
  const Cascade: seq<Family> :=
    [PublicDomain, CreativeCommons, OpenDataCommons, GovernmentOpen, Gpl, Agpl, Lgpl,
     WeakCopyleft, Documentation, Permissive]

  /** The first family in `order` whose guard holds. */
  function FirstMatch(order: seq<Family>, sid: string): (r: Option<Family>)
    ensures r.Some? ==> r.value in order && Matches(r.value, sid)
  {
    if order == [] then None
    else if Matches(order[0], sid) then Some(order[0])
    else FirstMatch(order[1..], sid)
  }

  lemma {:induction false} FirstMatchIsFirst(order: seq<Family>, i: nat, sid: string)
    requires i < |order| && Matches(order[i], sid)
    requires forall j :: 0 <= j < i ==> !Matches(order[j], sid)
    ensures FirstMatch(order, sid) == Some(order[i])
  {
    if i > 0 {
      assert !Matches(order[0], sid);
      FirstMatchIsFirst(order[1..], i - 1, sid);
    }
  }

  lemma {:induction false} FirstMatchNone(order: seq<Family>, sid: string)
    requires forall j :: 0 <= j < |order| ==> !Matches(order[j], sid)
    ensures FirstMatch(order, sid) == None
  {
    if order != [] {
      assert !Matches(order[0], sid);
      FirstMatchNone(order[1..], sid);
    }
  }

  /** The cascade is the first-match-wins table: the family part is the
      tags of the first family whose guard holds, never a union of
      branches, and the fallback exactly when no guard holds. */
  lemma CascadeIsFirstMatch(sid: string)
    ensures FamilyTags(sid) ==
      match FirstMatch(Cascade, sid)
      case Some(f) => BranchTags(f, sid)
      case None => FallbackTags
  {
    if Matches(PublicDomain, sid) { FirstMatchIsFirst(Cascade, 0, sid); }
    else if Matches(CreativeCommons, sid) { FirstMatchIsFirst(Cascade, 1, sid); }
    else if Matches(OpenDataCommons, sid) { FirstMatchIsFirst(Cascade, 2, sid); }
    else if Matches(GovernmentOpen, sid) { FirstMatchIsFirst(Cascade, 3, sid); }
    else if Matches(Gpl, sid) { FirstMatchIsFirst(Cascade, 4, sid); }
    else if Matches(Agpl, sid) { FirstMatchIsFirst(Cascade, 5, sid); }
    else if Matches(Lgpl, sid) { FirstMatchIsFirst(Cascade, 6, sid); }
    else if Matches(WeakCopyleft, sid) { FirstMatchIsFirst(Cascade, 7, sid); }
    else if Matches(Documentation, sid) { FirstMatchIsFirst(Cascade, 8, sid); }
    else if Matches(Permissive, sid) { FirstMatchIsFirst(Cascade, 9, sid); }
    else { FirstMatchNone(Cascade, sid); }
  }

  // ---------- Properties of the classifier ----------


  /** The shape every family contribution has: it opens with the one
      `license:` tag, holds no other, no status tag and no repeated tag. */
  predicate WellShaped(b: seq<string>) {
    && |b| > 0
    && IsLicenseTag(b[0])
    && (forall i :: 1 <= i < |b| ==> !IsLicenseTag(b[i]))
    && (forall i :: 0 <= i < |b| ==> !IsStatusTag(b[i]))
    && NoDuplicates(b)
  }

  /** The shape, from the first character of each tag: only `license:`
      tags start with `l`, only status tags with `s`. */
  lemma WellShapedByFirstChar(b: seq<string>)
    requires |b| > 0 && IsLicenseTag(b[0]) && NoDuplicates(b)
    requires forall i :: 0 <= i < |b| ==> |b[i]| > 0 && b[i][0] != 's'
    requires forall i :: 1 <= i < |b| ==> b[i][0] != 'l'
    ensures WellShaped(b)
  {
    forall i | 0 <= i < |b|
      ensures (i >= 1 ==> !IsLicenseTag(b[i])) && !IsStatusTag(b[i])
    {
      PrefixChar(b[i], "license:", 0);
      PrefixChar(b[i], "spdx:", 0);
    }
  }

  /** Appending tags that are neither `license:` nor status tags, and
      that repeat nothing, keeps the shape. */
  lemma WellShapedAppend(base: seq<string>, extra: seq<string>)
    requires WellShaped(base) && NoDuplicates(extra)
    requires forall t :: t in extra ==> |t| > 0 && t[0] != 's' && t[0] != 'l' && t !in base
    ensures WellShaped(base + extra)
  {
    var b := base + extra;
    forall i | |base| <= i < |b|
      ensures !IsLicenseTag(b[i]) && !IsStatusTag(b[i])
    {
      assert b[i] == extra[i - |base|];
      PrefixChar(b[i], "license:", 0);
      PrefixChar(b[i], "spdx:", 0);
    }
    forall i, j | 0 <= i < j < |b| ensures b[i] != b[j] {
      if j < |base| {
        assert base[i] != base[j];
      } else if i >= |base| {
        assert extra[i - |base|] != extra[j - |base|];
      } else {
        assert b[j] == extra[j - |base|] && b[i] == base[i];
      }
    }
  }

  /** The Creative Commons contribution, whatever its optional notes. */
  function CreativeCommonsTags(attribution: bool, shareAlike: bool, data: bool): seq<string> {
    ["license:creative-commons", "family:CC", "domain:content"]
    + (if attribution then ["notes:attribution-required"] else [])
    + (if shareAlike then ["notes:share-alike"] else [])
    + (if data then ["domain:data"] else [])
  }

  lemma CreativeCommonsTagsWellShaped(attribution: bool, shareAlike: bool, data: bool)
    ensures WellShaped(CreativeCommonsTags(attribution, shareAlike, data))
  {
    var base := ["license:creative-commons", "family:CC", "domain:content"];
    var e1: seq<string> := if attribution then ["notes:attribution-required"] else [];
    var e2: seq<string> := if shareAlike then ["notes:share-alike"] else [];
    var e3: seq<string> := if data then ["domain:data"] else [];
    assert WellShaped(base) by {
      assert IsLicenseTag(base[0]);
      WellShapedByFirstChar(base);
    }
    assert WellShaped(base + e1) by {
      WellShapedAppend(base, e1);
    }
    assert WellShaped(base + e1 + e2) by {
      assert forall t :: t in base + e1 ==> t != "notes:share-alike";
      WellShapedAppend(base + e1, e2);
    }
    assert forall t :: t in base + e1 + e2 ==> t != "domain:data";
    WellShapedAppend(base + e1 + e2, e3);
  }

  lemma CreativeCommonsWellShaped(sid: string)
    ensures WellShaped(BranchTags(CreativeCommons, sid))
  {
    CreativeCommonsTagsWellShaped(Contains(sid, "-BY-"), Contains(sid, "-SA-"),
      (StartsWith(sid, "CC-BY-") || StartsWith(sid, "CC-BY-SA-")) && EndsWith(sid, "-4.0"));
  }

  lemma OpenDataCommonsWellShaped(sid: string)
    ensures WellShaped(BranchTags(OpenDataCommons, sid))
  {
    var b := BranchTags(OpenDataCommons, sid);
    assert IsLicenseTag(b[0]);
    WellShapedByFirstChar(b);
  }

  lemma FixedBranchWellShaped(f: Family, sid: string)
    requires f != CreativeCommons && f != OpenDataCommons
    ensures WellShaped(BranchTags(f, sid))
  {
    var b := BranchTags(f, sid);
    assert IsLicenseTag(b[0]);
    WellShapedByFirstChar(b);
  }

  lemma BranchWellShaped(f: Family, sid: string)
    ensures WellShaped(BranchTags(f, sid))
  {
    if f == CreativeCommons { CreativeCommonsWellShaped(sid); }
    else if f == OpenDataCommons { OpenDataCommonsWellShaped(sid); }
    else { FixedBranchWellShaped(f, sid); }
  }

  lemma FallbackWellShaped()
    ensures WellShaped(FallbackTags)
  {
    PrefixChar(FallbackTags[1], "license:", 0);
    PrefixChar(FallbackTags[0], "spdx:", 0);
    PrefixChar(FallbackTags[1], "spdx:", 0);
  }

  lemma FamilyTagsWellShaped(sid: string)
    ensures WellShaped(FamilyTags(sid))
  {
    CascadeIsFirstMatch(sid);
    match FirstMatch(Cascade, sid)
    case Some(f) => BranchWellShaped(f, sid);
    case None => FallbackWellShaped();
  }

  /** Status tags followed by a well-shaped family part. */
  lemma StatusThenFamily(s: seq<string>, fam: seq<string>)
    requires forall i :: 0 <= i < |s| ==> IsStatusTag(s[i])
    requires forall i, j :: 0 <= i < j < |s| ==> StatusRank(s[i]) < StatusRank(s[j])
    requires WellShaped(fam)
    ensures var r := s + fam;
      && (forall t :: t in r && IsStatusTag(t) ==> t in s)
      && (forall i, j :: 0 <= i < j < |r| && IsStatusTag(r[j]) ==> IsStatusTag(r[i]))
      && (forall i, j :: 0 <= i < j < |r| && IsStatusTag(r[j]) ==> StatusRank(r[i]) < StatusRank(r[j]))
      && (|s| < |r| && IsLicenseTag(r[|s|]))
      && (forall i :: 0 <= i < |r| && IsLicenseTag(r[i]) ==> i == |s|)
      && NoDuplicates(r)
  {
    var r := s + fam;
    assert forall k :: 0 <= k < |s| ==> r[k] == s[k];
    assert forall k :: |s| <= k < |r| ==> r[k] == fam[k - |s|] && !IsStatusTag(r[k]);
    forall i | 0 <= i < |s| ensures !IsLicenseTag(r[i]) {
      PrefixChar(r[i], "spdx:", 0);
      PrefixChar(r[i], "license:", 0);
    }
    forall i, j | 0 <= i < j < |r| ensures r[i] != r[j] {
      if j < |s| {
        assert StatusRank(s[i]) < StatusRank(s[j]);
      } else if i >= |s| {
        assert fam[i - |s|] != fam[j - |s|];
      }
    }
  }

  /** The status tags open the result: each is present exactly when its
      flag is truthy, they keep the order osi-approved, fsf-free,
      deprecated, and every family tag comes after them. */
  lemma BuildTagsStatusFirst(spdxId: string, info: map<string, Json>)
    ensures var r := BuildTags(spdxId, info);
      && ("spdx:osi-approved" in r <==> Truthy(Get(info, "isOsiApproved")))
      && ("spdx:fsf-free" in r <==> Truthy(Get(info, "isFsfLibre")))
      && ("spdx:deprecated" in r <==> Truthy(Get(info, "isDeprecatedLicenseId")))
      && (forall i, j :: 0 <= i < j < |r| && IsStatusTag(r[j]) ==> IsStatusTag(r[i]))
      && (forall i, j :: 0 <= i < j < |r| && IsStatusTag(r[j]) ==> StatusRank(r[i]) < StatusRank(r[j]))
  {
    var osi, fsf, dep := Truthy(Get(info, "isOsiApproved")), Truthy(Get(info, "isFsfLibre")),
                         Truthy(Get(info, "isDeprecatedLicenseId"));
    StatusTagsFacts(osi, fsf, dep);
    FamilyTagsWellShaped(Upper(spdxId));
    StatusThenFamily(StatusTags(osi, fsf, dep), FamilyTags(Upper(spdxId)));
  }

  /** Exactly one `license:` tag, right after the status tags. */
  lemma BuildTagsOneLicenseTag(spdxId: string, info: map<string, Json>)
    ensures var r := BuildTags(spdxId, info);
      var k := |StatusOf(info)|;
      && k < |r| && IsLicenseTag(r[k])
      && forall i :: 0 <= i < |r| && IsLicenseTag(r[i]) ==> i == k
  {
    var osi, fsf, dep := Truthy(Get(info, "isOsiApproved")), Truthy(Get(info, "isFsfLibre")),
                         Truthy(Get(info, "isDeprecatedLicenseId"));
    StatusTagsFacts(osi, fsf, dep);
    FamilyTagsWellShaped(Upper(spdxId));
    StatusThenFamily(StatusTags(osi, fsf, dep), FamilyTags(Upper(spdxId)));
  }

  /** No tag appears twice in a `build_tags` result, although nothing
      deduplicates it. */
  lemma BuildTagsNoDuplicates(spdxId: string, info: map<string, Json>)
    ensures NoDuplicates(BuildTags(spdxId, info))
  {
    var osi, fsf, dep := Truthy(Get(info, "isOsiApproved")), Truthy(Get(info, "isFsfLibre")),
                         Truthy(Get(info, "isDeprecatedLicenseId"));
    StatusTagsFacts(osi, fsf, dep);
    FamilyTagsWellShaped(Upper(spdxId));
    StatusThenFamily(StatusTags(osi, fsf, dep), FamilyTags(Upper(spdxId)));
  }

  /** Classification ignores letter case: identifiers that upper-case alike
      and records whose flags agree get the same tags. */
  lemma BuildTagsCaseInsensitive(a: string, b: string, infoA: map<string, Json>, infoB: map<string, Json>)
    requires Upper(a) == Upper(b)
    requires StatusOf(infoA) == StatusOf(infoB)
    ensures BuildTags(a, infoA) == BuildTags(b, infoB)
  {
  }

  /** Upper-casing an identifier before classifying it changes nothing. */
  lemma BuildTagsOfUpper(spdxId: string, info: map<string, Json>)
    ensures BuildTags(Upper(spdxId), info) == BuildTags(spdxId, info)
  {
    UpperIdempotent(spdxId);
  }

  /** `CC0-1.0`, `UNLICENSE` and `0BSD`, in any letter case, get exactly the
      public-domain tags after the status tags. */
  lemma PublicDomainTags(spdxId: string, info: map<string, Json>)
    requires Upper(spdxId) in PublicDomainIds
    ensures BuildTags(spdxId, info) ==
      StatusOf(info) + ["license:public-domain", "copyleft:none", "domain:content", "domain:data"]
  {
  }

  /** An identifier no branch claims gets exactly the fallback tags. */
  lemma UnmatchedGetsFallback(spdxId: string, info: map<string, Json>)
    requires forall f: Family :: !Matches(f, Upper(spdxId))
    ensures BuildTags(spdxId, info) == StatusOf(info) + ["license:open-source", "domain:software"]
  {
    assert !Matches(PublicDomain, Upper(spdxId));
    assert !Matches(Permissive, Upper(spdxId));
  }

  /** No public-domain identifier starts with `CC-`. */
  lemma CreativeCommonsNotPublicDomain(sid: string)
    requires StartsWith(sid, "CC-")
    ensures sid !in PublicDomainIds
  {
    PrefixChar(sid, "CC-", 2);
  }

  /** The Creative Commons branch: attribution exactly for `-BY-`,
      share-alike exactly for `-SA-`, the data domain exactly for `CC-BY-`
      versions ending in `-4.0`, and never a copyleft or software tag. */
  lemma CreativeCommonsTagsMembers(attribution: bool, shareAlike: bool, data: bool)
    ensures var b := CreativeCommonsTags(attribution, shareAlike, data);
      && "license:creative-commons" in b && "family:CC" in b && "domain:content" in b
      && ("notes:attribution-required" in b <==> attribution)
      && ("notes:share-alike" in b <==> shareAlike)
      && ("domain:data" in b <==> data)
      && (forall t :: t in b ==> !StartsWith(t, "copyleft:") && t != "domain:software")
  {
    var b := CreativeCommonsTags(attribution, shareAlike, data);
    assert forall t :: t in b ==> t in {"license:creative-commons", "family:CC", "domain:content",
      "notes:attribution-required", "notes:share-alike", "domain:data"};
    forall t | t in b ensures !StartsWith(t, "copyleft:") {
      PrefixChar(t, "copyleft:", 0);
    }
  }

  /** A `CC-` identifier takes the Creative Commons branch. */
  lemma CreativeCommonsFamily(sid: string)
    requires StartsWith(sid, "CC-")
    ensures FamilyTags(sid) == CreativeCommonsTags(Contains(sid, "-BY-"), Contains(sid, "-SA-"),
                                                   StartsWith(sid, "CC-BY-") && EndsWith(sid, "-4.0"))
  {
    CreativeCommonsNotPublicDomain(sid);
    PrefixOfPrefix(sid, "CC-BY-SA-", "CC-BY-");
  }

  lemma CreativeCommonsBranch(spdxId: string, info: map<string, Json>)
    requires StartsWith(Upper(spdxId), "CC-")
    ensures var sid, r := Upper(spdxId), BuildTags(spdxId, info);
      && "license:creative-commons" in r && "family:CC" in r && "domain:content" in r
      && ("notes:attribution-required" in r <==> Contains(sid, "-BY-"))
      && ("notes:share-alike" in r <==> Contains(sid, "-SA-"))
      && ("domain:data" in r <==> StartsWith(sid, "CC-BY-") && EndsWith(sid, "-4.0"))
      && (forall t :: t in r ==> !StartsWith(t, "copyleft:") && t != "domain:software")
  {
    var sid := Upper(spdxId);
    CreativeCommonsFamily(sid);
    var attr, sa, data := Contains(sid, "-BY-"), Contains(sid, "-SA-"),
      StartsWith(sid, "CC-BY-") && EndsWith(sid, "-4.0");
    assert BuildTags(spdxId, info) == StatusOf(info) + CreativeCommonsTags(attr, sa, data);
    StatusOfNotCreativeCommons(info);
    CreativeCommonsTagsMembers(attr, sa, data);
  }

  /** No status tag is one the Creative Commons branch is judged by. */
  lemma StatusOfNotCreativeCommons(info: map<string, Json>)
    ensures forall t | t in StatusOf(info) ::
      && !StartsWith(t, "copyleft:") && t != "domain:software" && t != "notes:attribution-required"
      && t != "notes:share-alike" && t != "domain:data"
  {
    var s := StatusOf(info);
    forall t | t in s
      ensures !StartsWith(t, "copyleft:")
    {
      assert t in {"spdx:osi-approved", "spdx:fsf-free", "spdx:deprecated"};
      PrefixChar(t, "copyleft:", 0);
    }
  }

  /** An OSI-approved, FSF-libre `MIT` gets the permissive family's tags. */
  lemma MitExample()
    ensures BuildTags("MIT", map["isOsiApproved" := JBool(true), "isFsfLibre" := JBool(true),
                                 "isDeprecatedLicenseId" := JBool(false)])
      == ["spdx:osi-approved", "spdx:fsf-free", "license:open-source", "domain:software",
          "copyleft:permissive"]
  {
    var sid := Upper("MIT");
    assert sid == "MIT";
    PrefixChar(sid, "CC-", 0);
    PrefixChar(sid, "ODBL", 0); PrefixChar(sid, "ODC-", 0); PrefixChar(sid, "PDDL", 0);
    PrefixChar(sid, "OGL-", 0); PrefixChar(sid, "NLOD-", 0); PrefixChar(sid, "ETALAB-", 0);
    PrefixChar(sid, "GPL-", 0); PrefixChar(sid, "AGPL-", 0); PrefixChar(sid, "LGPL-", 0);
    PrefixChar(sid, "MPL-", 1); PrefixChar(sid, "EPL-", 0); PrefixChar(sid, "CDDL-", 0);
    PrefixChar(sid, "GFDL-", 0);
    assert StartsWith(sid, "MIT");
  }

  // ---------- Filtering and storing ----------

  /** `[t for t in raw_tags if registry.is_valid(t)]`. */
  function FilterValid(reg: Registry, tags: seq<string>): (r: seq<string>)
    ensures forall t :: t in r <==> t in tags && IsValid(reg, t)
    ensures |r| <= |tags|
  {
    if tags == [] then []
    else (if IsValid(reg, tags[0]) then [tags[0]] else []) + FilterValid(reg, tags[1..])
  }

  /** The filter keeps order: filtering a concatenation concatenates the
      filtered parts. */
  lemma {:induction false} FilterValidConcat(reg: Registry, a: seq<string>, b: seq<string>)
    ensures FilterValid(reg, a + b) == FilterValid(reg, a) + FilterValid(reg, b)
  {
    if a == [] {
      assert a + b == b;
    } else {
      assert (a + b)[0] == a[0];
      assert (a + b)[1..] == a[1..] + b;
      FilterValidConcat(reg, a[1..], b);
      var head := if IsValid(reg, a[0]) then [a[0]] else [];
      calc {
        FilterValid(reg, a + b);
        head + FilterValid(reg, a[1..] + b);
        head + (FilterValid(reg, a[1..]) + FilterValid(reg, b));
        (head + FilterValid(reg, a[1..])) + FilterValid(reg, b);
        FilterValid(reg, a) + FilterValid(reg, b);
      }
    }
  }

  /** Filtering never introduces a duplicate. */
  lemma {:induction false} FilterValidNoDuplicates(reg: Registry, tags: seq<string>)
    requires NoDuplicates(tags)
    ensures NoDuplicates(FilterValid(reg, tags))
  {
    if tags != [] {
      FilterValidNoDuplicates(reg, tags[1..]);
      assert tags[0] !in tags[1..];
    }
  }

  /** Filtering twice keeps what filtering once keeps. */
  lemma {:induction false} FilterValidIdempotent(reg: Registry, tags: seq<string>)
    ensures FilterValid(reg, FilterValid(reg, tags)) == FilterValid(reg, tags)
  {
    if tags != [] {
      var rest := FilterValid(reg, tags[1..]);
      FilterValidIdempotent(reg, tags[1..]);
      if IsValid(reg, tags[0]) {
        assert FilterValid(reg, tags) == [tags[0]] + rest;
        FilterValidConcat(reg, [tags[0]], rest);
        assert FilterValid(reg, [tags[0]]) == [tags[0]] by {
          assert [tags[0]][0] == tags[0] && [tags[0]][1..] == [];
        }
        calc {
          FilterValid(reg, FilterValid(reg, tags));
          FilterValid(reg, [tags[0]] + rest);
          FilterValid(reg, [tags[0]]) + FilterValid(reg, rest);
          [tags[0]] + rest;
        }
      } else {
        assert FilterValid(reg, tags) == [] + rest == rest;
      }
    }
  }

  /** The tags `apply_tags_to_file` stores: the valid ones among the raw
      tags, in order, never a repeated one. */
  lemma StoredTagsValidAndDistinct(reg: Registry, spdxId: string, info: map<string, Json>)
    ensures var r := FilterValid(reg, BuildTags(spdxId, info));
      && (forall t :: t in r <==> t in BuildTags(spdxId, info) && IsValid(reg, t))
      && NoDuplicates(r)
  {
    BuildTagsNoDuplicates(spdxId, info);
    FilterValidNoDuplicates(reg, BuildTags(spdxId, info));
  }

  /** What `apply_tags_to_file` does with a loaded document. */
  datatype ApplyOutcome =
    | Rewritten        // the `tags` key was set and the file written back
    | NoSpdxRecord     // `spdx` is missing or not a mapping: returned early
    | NoLicenseId      // `spdx.licenseId` is falsy: returned early
    | Raised           // the document is not a mapping, or the id is not a string

  function OutcomeOf(doc: Json): (r: ApplyOutcome)
    ensures r == NoSpdxRecord <==> doc.JObj? && !Get(doc.fields, "spdx").JObj?
    ensures r == NoLicenseId <==>
      doc.JObj? && Get(doc.fields, "spdx").JObj? && !Truthy(Get(Get(doc.fields, "spdx").fields, "licenseId"))
    ensures r == Rewritten <==>
      && doc.JObj? && Get(doc.fields, "spdx").JObj?
      && Get(Get(doc.fields, "spdx").fields, "licenseId").JStr?
      && Get(Get(doc.fields, "spdx").fields, "licenseId").s != []
  {
    if !doc.JObj? then Raised
    else
      var spdx := Get(doc.fields, "spdx");
      if !spdx.JObj? then NoSpdxRecord
      else
        var id := Get(spdx.fields, "licenseId");
        if !Truthy(id) then NoLicenseId
        else if !id.JStr? then Raised
        else Rewritten
  }

  /** The document after a rewrite: `tags` set to the valid raw tags. */
  function Retagged(reg: Registry, doc: Json): (r: Json)
    requires OutcomeOf(doc) == Rewritten
    ensures r.JObj? && r.fields.Keys == doc.fields.Keys + {"tags"}
    ensures forall k :: k in doc.fields && k != "tags" ==> r.fields[k] == doc.fields[k]
  {
    var spdx := doc.fields["spdx"].fields;
    JObj(doc.fields["tags" := StrList(FilterValid(reg, BuildTags(spdx["licenseId"].s, spdx)))])
  }

  /** A license file on disk, seen through its decoded content. */
  class LicenseFile {
    var content: Json

    constructor (content: Json)
      ensures this.content == content
    {
      this.content := content;
    }

    /** `apply_tags_to_file`: only a rewrite changes the file, and it
        changes only the `tags` key, to the valid raw tags in order. */
    method ApplyTags(reg: Registry) returns (outcome: ApplyOutcome)
      modifies this
      ensures outcome == OutcomeOf(old(content))
      ensures outcome == Rewritten ==> content == Retagged(reg, old(content))
      ensures outcome != Rewritten ==> content == old(content)
    {
      if !content.JObj? {
        return Raised;
      }
      var data := content.fields;
      var spdxInfo := Get(data, "spdx");
      if !spdxInfo.JObj? {
        return NoSpdxRecord;
      }
      var spdxId := Get(spdxInfo.fields, "licenseId");
      if !Truthy(spdxId) {
        return NoLicenseId;
      }
      if !spdxId.JStr? {
        return Raised;
      }
      var rawTags := BuildTags(spdxId.s, spdxInfo.fields);
      var validTags := FilterValid(reg, rawTags);
      data := data["tags" := StrList(validTags)];
      content := JObj(data);
      outcome := Rewritten;
    }
  }
}
