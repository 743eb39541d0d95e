# OpenAIRE standard plugin: section vocabularies, in Dafny

This project models the part of the OpenAIRE standard plugin for the journal system
that attaches two controlled-vocabulary fields to a journal section:

- a COAR resource type, taken from a fixed table of 17 COAR Resource Type Genre URIs
  with their labels;
- an audience, taken from a fixed list of 14 audiences whose codes are their own labels.

The model has three modules:

- `PhpArray` (`php_array.dfy`) models PHP arrays with string keys. It covers the
  ordered entries, lookup by key (null for an undefined index), the array union `+`,
  and PHP truthiness of null-or-string values.
- `Vocabulary` (`vocabulary.dfy`) holds the resource-type table, the lookup
  `_getCoarResourceType`, and the two option lists. Each option list puts a `''`
  "choose one" entry in front.
- `SectionFields` (`section_fields.dfy`) models the host's section store as a class
  (`SectionDao`, a map from section id to section) and the section form as a class
  (`SectionForm`, the id of the edited section and a map of form data). It also holds
  the four hooks that register, load, read and save the two fields. The save and load
  rules are given as the functions `Save` and `LoadSection`, and the hook methods are
  proved against them.

The save rule, as the code has it:

- Falsy form values (null, `''`, `'0'`) become `''`.
- When the resource type is empty, nothing is stored, not even a chosen audience.
- Otherwise, both fields of the form's one section are overwritten. An empty audience
  overwrites an earlier one.
- Neither value is checked against the vocabularies.

It follows that a stored resource type is never cleared by any series of saves.

Three facts about the code shape the model:

- Saving does not check either value against the vocabularies (`SaveDoesNotValidate`).
- The stored fields are null until first saved, and loading copies that null into the form.
- A save with a resource type for a section id the store lacks calls `setData` on null.
  The model reports this as the status `SectionMissing` and changes nothing.

## Model

| member | source | states |
|---|---|---|
| `PhpArray.Lookup` | OpenAIREstandardPlugin.inc.php:177 | `$m[$k]` yields a value exactly when `k` is a key of the array, and that value is one stored under `k`. |
| `PhpArray.LookupAt` | OpenAIREstandardPlugin.inc.php:176-177 | In an array with distinct keys, looking up an entry's key returns that entry's value. |
| `PhpArray.Union` | OpenAIREstandardPlugin.inc.php:192 | PHP's `a + b` starts with all of `a` unchanged. Every later entry comes from `b` and has a key that `a` lacks, so the result is never longer than `a` and `b` together. `UnionLookup` and `UnionDisjoint` state what lookups in it return and when it drops nothing. |
| `PhpArray.UnionLookup` | OpenAIREstandardPlugin.inc.php:192 | In `a + b`, a key is found in `a` first and only otherwise in `b`. |
| `PhpArray.UnionDisjoint` | OpenAIREstandardPlugin.inc.php:192 | When no key of `b` is a key of `a`, `a + b` drops nothing: it is `a` followed by all of `b` in order. |
| `Vocabulary.ResourceTypes` | OpenAIREstandardPlugin.inc.php:157-175 | The table has exactly 17 entries with distinct keys. Every key is a COAR resource-type URI and every label is non-empty. The first entry is `c_6501` 'journal article' and the last is `c_1843` 'other'. |
| `Vocabulary.FalsyIsNoResourceType` | OpenAIREstandardPlugin.inc.php:157-176 | Neither `''` nor `'0'` (the falsy strings) is a key of the table. |
| `Vocabulary.CoarResourceType` | OpenAIREstandardPlugin.inc.php:156-181 | A falsy argument (null, `''`, `'0'`) returns the whole table, and only such an argument does. A truthy URI returns a label exactly when it is a key of the table. |
| `Vocabulary.CoarResourceTypeLabel` | OpenAIREstandardPlugin.inc.php:176-177 | Looking up a URI returns a given label if and only if that URI => label pair is in the table. An unknown or empty string never returns another entry's label. |
| `Vocabulary.ConferencePaper` | OpenAIREstandardPlugin.inc.php:170 | Looking up `c_5794` returns 'conference paper'. |
| `Vocabulary.ResourceTypeOptions` | OpenAIREstandardPlugin.inc.php:188-194 | The resource-type options have 18 entries with distinct keys: `'' => chooseOne` first, then the whole table in its order. |
| `Vocabulary.AudienceOptions` | OpenAIREstandardPlugin.inc.php:201-220 | The audience options have 15 entries with distinct keys. `'' => chooseOne` comes first, then 14 audiences from 'Administrators' to 'Teachers'. Each audience's code equals its label and is non-empty. |
| `Vocabulary.AudienceCodeIsLabel` | OpenAIREstandardPlugin.inc.php:202-218 | Any non-empty code is either absent from the audience options or mapped to itself. |
| `SectionFields.SectionDao.UpdateObject` | OpenAIREstandardPlugin.inc.php:147 | Writing a section back replaces only the stored record with that id, and the store stays keyed by id. |
| `SectionFields.SectionForm.SetData` | OpenAIREstandardPlugin.inc.php:110-111 | Setting a form field changes that one key of the form data. |
| `SectionFields.AddSectionDAOFieldNames` | OpenAIREstandardPlugin.inc.php:65-69 | The field list grows by two. Its earlier entries stay unchanged and in place, followed by `resourceType` and then `audience`. |
| `SectionFields.InitDataSectionFormFields` | OpenAIREstandardPlugin.inc.php:102-113 | The form data becomes `LoadSection` of the old data. The lookup uses the request's journal, or `CONTEXT_ID_NONE` (0) when there is none. |
| `SectionFields.ReadSectionFormFields` | OpenAIREstandardPlugin.inc.php:124-129 | Both form fields take the submitted request values, or null where nothing was submitted. The rest of the form data is unchanged. |
| `SectionFields.Normalise` | OpenAIREstandardPlugin.inc.php:140-141 | A form value becomes `''` exactly when it is falsy. Otherwise it is kept as it is. |
| `SectionFields.Save` | OpenAIREstandardPlugin.inc.php:138-149 | With a falsy resource type, nothing changes, even when an audience is given. A section is updated exactly when the resource type is truthy and the section exists. That section then holds the resource type and the normalised audience, which may be `''`. Its id and journal are kept, with no vocabulary check. A truthy resource type for a missing section gives `SectionMissing` and leaves the store unchanged. Every other section and the set of ids are unchanged, and a set resource type stays set. |
| `SectionFields.ExecuteSectionFormFields` | OpenAIREstandardPlugin.inc.php:138-149 | The status and the new section store are exactly `Save` of the old store and the form's two values. The store stays keyed by id. |
| `SectionFields.ResourceTypeNeverCleared` | OpenAIREstandardPlugin.inc.php:140-147 | After any series of saves, a section whose resource type was set is still in the store with a truthy resource type. |
| `SectionFields.SaveKeepsWellKeyed` | OpenAIREstandardPlugin.inc.php:144-147 | Saving keeps every stored section under its own id. |
| `SectionFields.SubmitSaveLoad` | OpenAIREstandardPlugin.inc.php:108-147 | A request that submits a truthy resource type for an existing section gets both fields saved. A later load of that section in its journal puts exactly the submitted resource type and the normalised audience into the form. |
| `SectionFields.LoadMissingSection` | OpenAIREstandardPlugin.inc.php:108-112 | A load for a section that is not stored, or that belongs to another journal, leaves the form data unchanged. |
| `SectionFields.AudienceAloneIsNotSaved` | OpenAIREstandardPlugin.inc.php:141-142 | Saving an empty resource type with the audience 'Students' leaves the store unchanged. |
| `SectionFields.SaveErasesAudience` | OpenAIREstandardPlugin.inc.php:141-146 | Saving a resource type with no audience replaces a stored 'Teachers' with `''`. |
| `SectionFields.SaveDoesNotValidate` | OpenAIREstandardPlugin.inc.php:142-147 | 'not-a-real-uri' is not in the resource-type table, yet saving it stores it as given. |

## Left out

- `register` and `_registerTemplateResource` are left out. They wire the hooks and the two export plugins into the host's registries, and hold no logic of their own.
- The metadata-format plugin and the gateway plugin are left out. They are imported at registration but their code is not part of this model.
- `getDisplayName` and `getDescription` are left out because they are only localisation lookups. The localised "Choose One" string is the opaque parameter `chooseOne`.
- `addSectionFormFields` is left out because it only assigns the option lists to the template and renders it.
- The host's request, DAO registry, `getById` and `updateObject` are modelled only as maps. The section store is a map from id to a record with an id, a journal id and the two fields. `getById` is a map lookup, filtered by journal when one is given.
- Section fields other than the two plugin fields are not modelled.
- Request variables are a map from name to string, and a missing variable reads as null. Any cleaning the host applies to request values, and non-string values such as arrays, are not modelled.
- PHP values other than null and strings are not modelled, so truthiness covers only null, `''` and `'0'`.
- PHP's notice for an undefined index is not modelled. The lookup just returns null (None).
- The fatal error when a save names a section that is not stored is not modelled as an abort. It is the status `SectionMissing`, with the store unchanged.
- `SectionFields.AddSectionDAOFieldNames` changes a by-reference array in the source. Here the list is passed in and the extended list is returned, because PHP arrays are values.
- `Vocabulary.AudienceOptions`: the contract names the first and last audiences only. The order of the twelve between them is fixed by the function's definition.
- `Vocabulary.ResourceTypes`: the contract names the first and last entries only. The order of the fifteen between them is fixed by the function's definition.
