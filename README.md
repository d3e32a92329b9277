# License curation pipeline: tagging, merge and import, in Dafny

This project models the core of a license-metadata curation pipeline and
proves properties of that model. The pipeline has three parts:

- **The tag registry and classifier** (`scripts/licenses_tags.py`).
  - `TagRegistry` checks `group:key` tags against a two-level registry.
  - `build_tags` derives tags from an SPDX identifier through a
    first-match-wins cascade over the upper-cased identifier. It emits the
    SPDX status tags first, then the tags of exactly one license family.
  - `apply_tags_to_file` stores the registry-valid tags, in order, under a
    record's `tags` key.
- **The merge engine** (`scripts/merge_spdx_with_choosealicense.py`).
  - It reads ChooseALicense front matter.
  - It joins the SPDX and ChooseALicense maps by identifier; SPDX decides
    which identifiers exist.
  - It maps each identifier to an output file name.
- **The importer** (`project/data_importer.py`). It fills a three-table
  store:
  - `rules`, keyed by rule key;
  - `licenses`, keyed by SPDX id;
  - the set of (SPDX id, rule key) mapping pairs.

  Every insert is an insert-or-ignore. A foreign-key check rejects a mapping
  whose license or rule row is missing. A connection sees its own
  uncommitted rows, and closing it without a commit drops them.

Files:

- `Values.dfy`: decoded JSON/YAML values, Python truthiness, `dict.get`.
- `Text.dfy`: `startswith`, `endswith`, substring search, ASCII
  `upper`/`lower`.
- `LicenseTags.dfy`: the registry, the classifier, the tag filter, and the
  `LicenseFile` class whose `ApplyTags` rewrites a record in place.
- `Merge.dfy`: the front matter, the loader and its loop, `merge_licenses`
  as a loop over the SPDX ids, and the file names.
- `DataImporter.dfy`:
  - pure specifications of both import loops;
  - the `Database` class, whose methods insert, commit and run
    `import_rules`, `import_licenses` and `import_all_data` against those
    specifications.

One might expect the tag filter to remove duplicates, but
`scripts/licenses_tags.py:281` only filters. The model does the same
(`FilterValid`). `BuildTagsNoDuplicates` proves that `build_tags` never
emits a duplicate, so the stored tags are duplicate-free anyway
(`StoredTagsValidAndDistinct`).

The database schema is not part of this model. The model takes every
column other than the keys to accept any value the driver can bind, NULL
included, and treats a key that is not text as a row the store does not
take. The driver cannot bind lists, mappings, or integers outside the
signed 64-bit range (`Bindable`). Any of these raises an error that is
not an integrity error.

The importer does not roll back a file whose mapping loop raises. The rows
that file inserted stay pending on the connection. A later file's commit
stores them, and they are lost only when no later file commits
(`PendingRowsCommittedLater`).

## Model

| member | source | states |
|---|---|---|
| LicenseTags.IsValid | scripts/licenses_tags.py:72-82 | `is_valid`: a tag is valid only if it has a `:`; its exact meaning is stated by `IsValidSplit` |
| LicenseTags.GetTagInfo | scripts/licenses_tags.py:97-108 | `get_tag_info`; what it returns for valid and reserved tags is stated by `TagInfoOfValidTag` and `ReservedKeyOnlyMeta` |
| LicenseTags.Partition | scripts/licenses_tags.py:73 | `str.partition`: the head holds no separator; head + separator + tail rebuild the string when one is found; otherwise the head is the whole string |
| LicenseTags.PartitionAtFirst | scripts/licenses_tags.py:73 | only the first `:` splits; later colons stay in the key |
| LicenseTags.IsValidNeedsColon | scripts/licenses_tags.py:73-75 | a tag without `:` is never valid |
| LicenseTags.IsValidSplit | scripts/licenses_tags.py:72-82 | `is_valid("group:key")` holds iff both parts are non-empty, the group is a mapping in the registry, the key is not `_group`, and the key is in the group |
| LicenseTags.GetGroupMeta | scripts/licenses_tags.py:84-95 | metadata is returned iff the group is a mapping whose `_group` entry is a mapping, and it is that entry |
| LicenseTags.TagInfoOfValidTag | scripts/licenses_tags.py:97-108 | for a valid tag, `get_tag_info` returns the tag's entry exactly when that entry is a mapping |
| LicenseTags.ReservedKeyOnlyMeta | scripts/licenses_tags.py:80-81 | `group:_group` is never valid, yet `get_tag_info` on it returns exactly the group metadata |
| LicenseTags.StatusTagsFacts | scripts/licenses_tags.py:123-133 | each status tag is present iff its flag holds, in the order osi-approved, fsf-free, deprecated |
| LicenseTags.FamilyTags | scripts/licenses_tags.py:135-260 | the family branches of `build_tags` in source order; `CascadeIsFirstMatch` states that the first matching branch wins |
| LicenseTags.BuildTags | scripts/licenses_tags.py:113-260 | `build_tags`: the status tags, then one family's tags; its properties are the `BuildTags*` lemmas below |
| LicenseTags.FirstMatch | scripts/licenses_tags.py:138-253 | the family chosen is in the branch order and its guard holds |
| LicenseTags.CascadeIsFirstMatch | scripts/licenses_tags.py:138-260 | the family tags are those of the first branch whose guard holds, or the fallback when none holds |
| LicenseTags.FamilyTagsWellShaped | scripts/licenses_tags.py:138-260 | every branch opens with its one `license:` tag, has no status tag and repeats no tag |
| LicenseTags.BuildTagsStatusFirst | scripts/licenses_tags.py:123-133 | each status tag appears iff its flag is truthy; status tags come first, in fixed order |
| LicenseTags.BuildTagsOneLicenseTag | scripts/licenses_tags.py:138-260 | exactly one `license:` tag, at the position right after the status tags |
| LicenseTags.BuildTagsNoDuplicates | scripts/licenses_tags.py:113-260 | no tag appears twice, although nothing removes duplicates |
| LicenseTags.BuildTagsCaseInsensitive | scripts/licenses_tags.py:121-125 | the result depends only on the upper-cased id and the three flags |
| LicenseTags.BuildTagsOfUpper | scripts/licenses_tags.py:121 | classifying an already upper-cased id gives the same tags |
| LicenseTags.PublicDomainTags | scripts/licenses_tags.py:138-146 | `CC0-1.0`, `UNLICENSE`, `0BSD` in any case give exactly the four public-domain tags after the status tags |
| LicenseTags.UnmatchedGetsFallback | scripts/licenses_tags.py:255-260 | an id no guard matches gets exactly `license:open-source`, `domain:software` after the status tags |
| LicenseTags.CreativeCommonsTagsMembers | scripts/licenses_tags.py:150-166 | the CC tags hold attribution iff asked, share-alike iff asked, `domain:data` iff asked, and never a copyleft or software tag |
| LicenseTags.CreativeCommonsFamily | scripts/licenses_tags.py:138-167 | a `CC-` id is never public domain, so it takes the Creative Commons branch, with the flags read from the id |
| LicenseTags.CreativeCommonsBranch | scripts/licenses_tags.py:149-167 | for a `CC-` id: attribution iff `-BY-`, share-alike iff `-SA-`, `domain:data` iff it starts with `CC-BY-` and ends with `-4.0`; no copyleft or software tag |
| LicenseTags.MitExample | scripts/licenses_tags.py:247-253 | an OSI-approved, FSF-libre `MIT` gets the two status tags and the permissive tags |
| LicenseTags.FilterValid | scripts/licenses_tags.py:281 | a tag is kept iff it is in the input and valid; the result is never longer than the input |
| LicenseTags.FilterValidConcat | scripts/licenses_tags.py:281 | filtering keeps order: it distributes over concatenation |
| LicenseTags.FilterValidNoDuplicates | scripts/licenses_tags.py:281 | filtering adds no duplicate |
| LicenseTags.FilterValidIdempotent | scripts/licenses_tags.py:281 | filtering twice equals filtering once |
| LicenseTags.StoredTagsValidAndDistinct | scripts/licenses_tags.py:280-283 | the stored tags are exactly the valid raw tags, with no repeats |
| LicenseTags.OutcomeOf | scripts/licenses_tags.py:269-278 | a record without a mapping `spdx` returns early, so does one with a falsy `licenseId`, and only a non-empty string id is rewritten |
| LicenseTags.Retagged | scripts/licenses_tags.py:283 | the rewritten record has the old keys plus `tags`, and every other key keeps its value |
| LicenseTags.LicenseFile.ApplyTags | scripts/licenses_tags.py:263-286 | a record without a mapping `spdx` or with a falsy `licenseId` is left untouched; otherwise only `tags` changes, to the filtered tags |
| MergeLicenses.FrontMatter | scripts/merge_spdx_with_choosealicense.py:40-41 | content is considered iff it starts with `---`; the front matter follows that delimiter, holds no delimiter, and runs to the next one or to the end |
| MergeLicenses.FrontMatterUnique | scripts/merge_spdx_with_choosealicense.py:41 | any text with those three properties is the front matter |
| MergeLicenses.MetadataOf | scripts/merge_spdx_with_choosealicense.py:40-49 | a file is an entry iff it starts with `---` and its front matter parses to a mapping whose `spdx-id` is a non-empty string; it crashes iff the YAML fails, is not a mapping, or has a truthy list or mapping `spdx-id` (unhashable); missing list fields default to `[]` |
| MergeLicenses.Collect | scripts/merge_spdx_with_choosealicense.py:36-50 | the loader's dictionary over the files read so far; its meaning is stated by `CollectKeys`, `CollectLastWins` and `CollectCrashes` |
| MergeLicenses.LoadedFrom | scripts/merge_spdx_with_choosealicense.py:32-50 | `load_choosealicense_metadata` as the fold of `Collect` over each file's outcome |
| MergeLicenses.LoadChooseALicenseMetadata | scripts/merge_spdx_with_choosealicense.py:32-50 | the loop computes the fold over the files in glob order |
| MergeLicenses.CrashSticks | scripts/merge_spdx_with_choosealicense.py:42-43 | once a file raises, the load raises whatever follows |
| MergeLicenses.CollectKeys | scripts/merge_spdx_with_choosealicense.py:44-45 | the loaded ids are exactly those some file defines |
| MergeLicenses.CollectLastWins | scripts/merge_spdx_with_choosealicense.py:45-49 | each id carries the record of the last file defining it |
| MergeLicenses.CollectCrashes | scripts/merge_spdx_with_choosealicense.py:37-49 | the load raises iff some file crashes: its front matter is not YAML, not a mapping, or has an unhashable `spdx-id` |
| MergeLicenses.MergeLicenses | scripts/merge_spdx_with_choosealicense.py:52-69 | output ids are within the SPDX ids: all of them without the filter, and those without a community entry with it; `spdx` is copied; `categorized` iff a community entry exists; lists copied when categorized, else empty |
| MergeLicenses.SafeFileName | scripts/merge_spdx_with_choosealicense.py:85 | same length, no `/`, each `/` becomes `_`, every other character kept |
| MergeLicenses.OutputFileName | scripts/merge_spdx_with_choosealicense.py:85-86 | the output name is the id's length plus five, ends in `.json`, and holds no `/` |
| MergeLicenses.SafeFileNameInjective | scripts/merge_spdx_with_choosealicense.py:85-86 | ids without `_` never share a file name |
| MergeLicenses.SafeFileNameCollision | scripts/merge_spdx_with_choosealicense.py:85-86 | `A/B` and `A_B` are written to the same file |
| DataImporter.InsertRuleRow | project/data_importer.py:35-38 | insert-or-ignore: the key is present afterwards, an existing row is kept, a new key gets the row, and no other table changes |
| DataImporter.InsertLicenseRow | project/data_importer.py:93-103 | insert-or-ignore on `licenses`, as for rules |
| DataImporter.InsertMappingRow | project/data_importer.py:119-124 | the pair is present afterwards iff it was before or both referenced rows exist; nothing else changes, and the foreign keys still hold |
| DataImporter.RuleActionOf | project/data_importer.py:33-44 | a rule lacking `id`, `label` or `category` is skipped; a complete rule is stored iff its `id` is a string and its values can be bound; the whole import fails iff the item is not a mapping or a complete rule has a value that cannot be bound; a stored rule takes key, label and category from the item, and its description defaults to `''` |
| DataImporter.RuleItems | project/data_importer.py:22-33 | the items `for rule in rules_data` visits: a list's elements; an empty mapping or string gives none; any other value makes the import fail |
| DataImporter.ApplyRules | project/data_importer.py:32-44 | the rule loop as a fold over the items' actions; its effect is stated by the `ApplyRules*` lemmas below |
| DataImporter.ApplyRulesStores | project/data_importer.py:32-44 | after the loop, the rule keys are the old ones plus every stored key, and a key new to the table holds the row of its first insert |
| DataImporter.ApplyRulesGrows | project/data_importer.py:32-44 | the rule loop changes only `rules`, and no existing rule row changes |
| DataImporter.ApplyRulesCount | project/data_importer.py:39-40 | the loop's count is the number of rule keys it added |
| DataImporter.ApplyRulesFails | project/data_importer.py:32-44 | the loop stops iff some element raises an error other than a missing key |
| DataImporter.ApplyRulesSkips | project/data_importer.py:43-44 | a skipped element leaves the rest of the loop as if it were absent |
| DataImporter.ApplyRulesSkipsIncomplete | project/data_importer.py:35-44 | a rule lacking a required field is skipped, and the rules after it are still inserted |
| DataImporter.RulesImportGrows | project/data_importer.py:15-57 | `import_rules` touches only `rules`, keeps existing rows and the foreign keys |
| DataImporter.RulesImportCount | project/data_importer.py:31-47 | the reported count is the number of new rule keys |
| DataImporter.RuleImportStores | project/data_importer.py:15-46 | when `import_rules` commits, every rule it inserts is in the committed `rules` table, with the first such row for a new key |
| DataImporter.RulesExample | project/data_importer.py:32-46 | two complete rules on an empty store are both stored and counted; the missing description is stored as `''` |
| DataImporter.IsLicenseFileName | project/data_importer.py:72 | the file filter: the name ends with `.json` and, lower-cased, does not start with `readme` |
| DataImporter.LicenseUrl | project/data_importer.py:86-90 | the url raises iff `links[0]` is not a mapping; it is the first link's url when that is truthy, otherwise `url` if present, else `text_url` |
| DataImporter.RuleKeys | project/data_importer.py:106-115 | the rule keys of a license file; `RulesListExclusive` and `NonListCategoryIgnored` state the selection |
| DataImporter.PlanOf | project/data_importer.py:76-103 | a file is skipped iff it decodes to a mapping with a falsy `spdx_id`; it proceeds iff the id is truthy and every value can be bound; then the row is `title` else `name`, the url of `LicenseUrl`, `description` else `summary`, and the keys are `RuleKeys` |
| DataImporter.FallbackFieldsExample | project/data_importer.py:85-99 | without `title`, `description` or a truthy first-link url, the row takes `name`, `summary` and `text_url` |
| DataImporter.SkipIffNoSpdxId | project/data_importer.py:80-83 | a decoded file is skipped iff its `spdx_id` is falsy |
| DataImporter.FileWithoutInsertChangesNothing | project/data_importer.py:72-83 | a filtered-out, skipped or early-failing file changes nothing but the processed count |
| DataImporter.RulesListExclusive | project/data_importer.py:108-110 | a `rules` list is used alone: the category lists do not matter |
| DataImporter.NonListCategoryIgnored | project/data_importer.py:111-115 | without a `rules` list, a category that is not a list adds nothing, as if absent |
| DataImporter.MapKeys | project/data_importer.py:117-124 | the mapping loop as a recursion over the keys; its effect is stated by `MapKeysEffect` |
| DataImporter.MapKeysEffect | project/data_importer.py:117-124 | the mapping loop raises iff a key cannot be bound; otherwise it adds exactly the pairs whose license and rule rows exist, and no other table changes |
| DataImporter.MapKeysGrowsByPairs | project/data_importer.py:117-124 | even when it raises, the mapping loop adds only pairs whose rows exist |
| DataImporter.UnknownRuleSkipped | project/data_importer.py:117-124 | an unknown rule key only costs its own mapping; the license row stays and the other keys are mapped |
| DataImporter.FileAppliedGrows | project/data_importer.py:76-126 | one file keeps `rules` and every existing row, and keeps the foreign keys |
| DataImporter.FileStep | project/data_importer.py:71-135 | one entry of the listing: the name filter, then the file's insert, mapping loop and commit |
| DataImporter.ImportFiles | project/data_importer.py:71-135 | the loop over the listing as a fold of `FileStep` |
| DataImporter.ImportFilesKeepsSession | project/data_importer.py:71-135 | over any files, committed and working tables keep the rule rows and the foreign keys, and only grow |
| DataImporter.LicenseImportGrows | project/data_importer.py:59-146 | `import_licenses` never changes `rules`, keeps every existing row and keeps the foreign keys |
| DataImporter.LicensesBeforeRulesMapNothing | project/data_importer.py:148-155 | run on an empty store before the rules, the license import stores no mapping |
| DataImporter.ImportFilesCounts | project/data_importer.py:63-74 | processed counts exactly the names passing the filter; commits and new licenses never exceed it |
| DataImporter.UnknownRuleExample | project/data_importer.py:93-126 | a license whose only rule is unknown is stored and committed once, with no mapping |
| DataImporter.KnownRuleExample | project/data_importer.py:85-126 | with its rule present, a license file yields its row from its title, url and description and its mapping, in one commit |
| DataImporter.PendingFileStep | project/data_importer.py:93-135 | a file whose mapping loop raises leaves its license row pending, uncommitted |
| DataImporter.LaterFileStep | project/data_importer.py:93-126 | a good file commits everything pending on the connection |
| DataImporter.PendingRowsCommittedLater | project/data_importer.py:117-135 | a failed file's license row is lost when it is the last file, and committed by a later file's commit otherwise |
| DataImporter.ImportAllGrows | project/data_importer.py:148-155 | the whole import keeps every existing row and the foreign keys |
| DataImporter.Database.Reset | project/data_importer.py:9-13 | opening or closing a connection: the working tables become the committed ones |
| DataImporter.Database.Commit | project/data_importer.py:46 | `conn.commit()`: the committed tables become the working ones |
| DataImporter.Database.InsertRule | project/data_importer.py:35-40 | insert-or-ignore on `rules`: a row is added iff the key is new |
| DataImporter.Database.InsertLicense | project/data_importer.py:93-103 | insert-or-ignore on `licenses`: a row is added iff the id is new |
| DataImporter.Database.InsertMapping | project/data_importer.py:119-124 | the mapping is stored iff the license and rule rows exist; otherwise a foreign-key failure |
| DataImporter.Database.ImportRules | project/data_importer.py:15-57 | commits once with the count of new rules when the loop completes; a missing, undecodable or failing file commits nothing |
| DataImporter.Database.MapRuleKeys | project/data_importer.py:117-124 | the mapping loop computes its specification |
| DataImporter.Database.ImportLicenseFile | project/data_importer.py:93-126 | one decoded file: the license row is added iff its id is new, then the mapping loop runs, and the file commits iff that loop completes |
| DataImporter.Database.ImportListedFile | project/data_importer.py:71-135 | one listing entry computes `FileStep` on the session |
| DataImporter.Database.ImportLicenses | project/data_importer.py:59-146 | a missing directory changes nothing; otherwise one commit per completed file, with the processed and imported counts of the specification |
| DataImporter.Database.ImportAllData | project/data_importer.py:148-155 | the committed tables are those of the rule import followed by the license import |

## Left out

- File and directory I/O, `json`/`yaml` parsing, `Path.glob` and `os.listdir` are not modelled. Decoded documents, file contents and listings are inputs. The YAML parser is a function parameter, and `None` stands for a YAML error.
- Printed warnings and summaries are not modelled. Only each outcome's effect on the tables, the counters and the commits is kept.
- `main` of both scripts, argument parsing, `update_submodules` and the `--only-missing` re-read are not modelled.
- `load_spdx_licenses` is not modelled; the SPDX map is an input to `MergeLicenses`.
- The JSON writing in both scripts' `main` is not modelled. `OutputFileName` gives the file each merged record goes to, and `SafeFileNameCollision` shows two ids that share one.
- The SQLite connection, cursor and PRAGMA mechanics are not modelled. Opening and closing a connection are `Database.Reset`, which keeps only committed rows.
- Floating-point numbers are not modelled. JSON numbers are integers. The core tests their truthiness, binds them in the importer and copies them in the merge; none of these steps depends on a fractional part.
- `UpperChar`, `LowerChar`: only ASCII letters change case. Python's `upper`/`lower` also map other letters, for example `ß` to `SS`.
- DataImporter.RuleActionOf: a rule `id` that is a number, boolean or null is modelled as not stored. SQLite would store it after type conversion, under a schema not visible here.
- DataImporter.PlanOf: the same applies to a license `spdx_id` that is not a string, and to mapping keys that are not strings (`MapOne`).
- MergeLicenses.MetadataOf: a truthy number or boolean `spdx-id` is skipped, because the model's dictionary is keyed by strings. Python would key the entry by that value. A truthy list or mapping crashes the load, as in Python.
- LicenseTags.OutcomeOf: a truthy `licenseId` that is not a string is modelled as raising. Python's `.upper()` raises there too.
- MergeLicenses.MergeLicenses: the loop visits SPDX ids in an unspecified order, where Python uses insertion order. The result does not depend on the order.
- The outer `except Exception` of `import_licenses` covers only errors of `os.listdir` and of file-name handling, and it is not modelled.
- The database schema is not part of this model. The model assumes that every column other than the keys accepts NULL. If `name`, `url`, `summary` or `label` were NOT NULL, `INSERT OR IGNORE` would drop a row that the model stores.
