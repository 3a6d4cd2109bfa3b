# Locked-template expander

This project models a small resume-processing component. A content generator writes a resume document in which some `work[].highlights[]` bullets are placeholders such as `{{freefly.1}}`. The component replaces each placeholder with a fixed, pre-approved sentence from a constant registry (`LOCKED_TEMPLATES`), so that those sentences are reproduced verbatim. It has three operations:

- `expandTemplates` expands placeholders and strips each job's `highlights_ref` marker.
- `findUnexpandedTemplates` lists, in document order, the placeholder keys the registry does not hold.
- `getAvailableTemplates` lists the registry's keys.

Modules, one per concept:

- `Wrappers` (`wrappers.dfy`): `Option`.
- `Resume` (`resume.dfy`): the document as a JSON value. It has `Value`, JavaScript truthiness (`Truthy`), and `ArrayField` for a property read with `x && Array.isArray(x)`. `Job` and `Doc` carry every field the code does not touch, opaquely, in `rest`.
- `Placeholder` (`placeholder.dfy`): the regular expression `^\{\{(.+?)\}\}$`. `PlaceholderKey` is its closed form. `MatchPlaceholder` is the backtracking search a regex engine performs, and it is proved equal to `PlaceholderKey`.
- `LockedTemplates` (`locked_templates.dfy`): the registry as a `map<string, string>` literal holding the nine entries verbatim. It also holds the facts about the registry and `getAvailableTemplates`.
- `TemplateExpander` (`template_expander.dfy`): pure definitions of expansion and scanning. The registry is a parameter `reg: map<string, string>` rather than the fixed constant, so every property is proved for any registry of the stated shape. A key resolves (`Resolves`) when it is in `reg` and its text is truthy, that is, non-empty. Next to the definitions are methods with loops that follow the JavaScript loops and are proved equal to the pure definitions. The `console.warn` calls become a returned `warnings` list, proved equal to the scanner's output.
- `ExpanderProperties` (`expander_properties.dfy`): idempotence and scanner invariance, for every registry none of whose values is itself a placeholder, and the behaviour on small documents.
- `LockedExpansion` (`locked_expansion.dfy`): the same operations with `reg` set to the actual registry, `LockedTemplates.Registry`. It holds the general properties for that registry and the behaviour on specific documents.
- `PrototypeLookup` (`prototype_lookup.dfy`): the registry lookup as JavaScript actually performs it, including inherited `Object.prototype` members (see Findings).

`highlights_ref` is removed only when it is truthy (`if (job.highlights_ref)`, lib/template-expander.js:29), so a present `""`, `0`, `false` or `null` marker is kept; `TemplateExpander.StripRef` follows this.

## Model

| member | source | states |
|---|---|---|
| Placeholder.PlaceholderKey | lib/template-expander.js:45-48 | a captured key `k` always satisfies `{{k}}` == the string, is non-empty and contains no line terminator |
| Placeholder.PlaceholderKeyIff | lib/template-expander.js:45-48 | a string matches with capture `k` if and only if it is exactly `{{k}}` with `k` non-empty and free of `\n`, `\r`, U+2028 and U+2029 |
| Placeholder.WrapThenMatch | lib/template-expander.js:45-48 | wrapping any non-empty single-line key in braces and matching again gives back that key |
| Placeholder.EmbeddedIsNotPlaceholder | lib/template-expander.js:45 | a placeholder with other text before it (not starting with `{`) or after it (not ending with `}`) does not match: the pattern is anchored at both ends |
| Placeholder.NoClosingBraceNoMatch | lib/template-expander.js:45 | a string whose last character is not `}` never matches |
| Placeholder.LazyGroupRunsToEnd | lib/template-expander.js:45 | the non-greedy group still extends to the final `}}` because of `$`: `{{a}}b}}` captures `a}}b` |
| Placeholder.MatchPlaceholder | lib/template-expander.js:45-48 | the regex engine's search grows the lazy group one character at a time, fails at a line terminator and stops at the first `}}` that ends the input; it returns exactly the closed-form capture |
| LockedTemplates.RegistryKeys | lib/locked-templates.js:12-35 | the registry's key set is exactly the nine keys of the literal |
| LockedTemplates.RegistrySize | lib/locked-templates.js:15-34 | the registry has exactly nine entries |
| LockedTemplates.RegistryKeysTwoSegment | lib/locked-templates.js:15-34 | every key is `<namespace>.<segment>`: one dot, with non-empty dot-free text on both sides |
| LockedTemplates.RegistryKeysMatchable | lib/locked-templates.js:15-34 | every key is non-empty and free of line terminators, so `{{key}}` is a placeholder for it |
| LockedTemplates.RegistryValuesNonEmpty | lib/locked-templates.js:15-34 | every value is a non-empty string |
| LockedTemplates.RegistryValuesEndWithoutBrace | lib/locked-templates.js:15-34 | no value ends in `}` |
| LockedTemplates.NoBraceEndingNoPlaceholder | lib/template-expander.js:45 | in any registry whose values all end in something other than `}`, no value matches the placeholder pattern |
| LockedTemplates.RegistryValuesNotPlaceholders | lib/locked-templates.js:15-34 | no value is itself a placeholder, so locked text is never expanded again or reported |
| LockedTemplates.DocumentedIdsCoverage | lib/locked-templates.js:37-47 | `freefly.0` is documented but absent from the registry; every other documented ID is a key |
| LockedTemplates.AvailableTemplates | lib/template-expander.js:102-104 | the returned keys are exactly the registry's keys, each once, as many as the registry has entries |
| Resume.Truthy | lib/template-expander.js:26-85 | the JavaScript truthiness the code tests at lines 26, 29, 37, 51 and 85: a JSON value is falsy exactly when it is `null`, `false`, `0` or `""` |
| TemplateExpander.Resolves | lib/template-expander.js:51 | the test `LOCKED_TEMPLATES[key]` on own entries holds exactly when the key is in the registry and its text is non-empty |
| TemplateExpander.BulletKey | lib/template-expander.js:39-48 | a non-string bullet has no key; a key found makes the bullet exactly `{{key}}` with a non-empty single-line key; and every bullet `{{key}}` with such a key yields that key |
| TemplateExpander.ScanJob | lib/template-expander.js:81-90 | a job whose `highlights` is missing or not an array contributes nothing; otherwise at most one key per bullet, each one that does not resolve |
| TemplateExpander.ResolvesIffMember | lib/template-expander.js:51 | when every value is non-empty, the truthiness test `LOCKED_TEMPLATES[key]` on own entries holds exactly for the registry's keys |
| TemplateExpander.ExpandBullet | lib/template-expander.js:39-61 | a placeholder for a key that resolves becomes that key's text, character for character; a placeholder for a key that does not resolve, a non-placeholder string and a non-string bullet are all returned unchanged |
| TemplateExpander.ExpandHighlights | lib/template-expander.js:38-62 | same length as the input, and each output bullet is the expansion of the input bullet at the same index |
| TemplateExpander.StripRef | lib/template-expander.js:29-34 | the marker is removed exactly when it is absent or truthy; a kept marker is unchanged |
| TemplateExpander.ExpandJob | lib/template-expander.js:27-63 | other job fields are unchanged; `highlights_ref` is removed iff truthy, whether or not `highlights` exists; a missing or non-array `highlights` is unchanged; an array keeps its length and maps bullet by bullet |
| TemplateExpander.ExpandJobs | lib/template-expander.js:26-27 | same number of jobs in the same order, each the expansion of the job at the same index |
| TemplateExpander.ExpandTemplates | lib/template-expander.js:21-68 | other document fields are unchanged; a missing or non-array `work` leaves the document equal to the input; otherwise jobs keep their count and order and are expanded one by one |
| TemplateExpander.BulletUnresolved | lib/template-expander.js:83-87 | a bullet contributes its key, exactly once, iff it is a string placeholder whose key does not resolve, and contributes nothing otherwise |
| TemplateExpander.ScanBullets | lib/template-expander.js:82-89 | at most one entry per bullet, and every entry is a key that does not resolve |
| TemplateExpander.ScanJobs | lib/template-expander.js:80-91 | every reported key is one that does not resolve |
| TemplateExpander.UnexpandedTemplates | lib/template-expander.js:76-95 | empty when `work` is missing or not an array; every reported key is one that does not resolve |
| TemplateExpander.ScanBulletsAppend | lib/template-expander.js:82-86 | scanning `xs + ys` gives the report for `xs` followed by the report for `ys`: order is kept and duplicates are not removed |
| TemplateExpander.ScanJobsAppend | lib/template-expander.js:80-91 | scanning jobs `xs + ys` gives the report for `xs` followed by that for `ys` (job-then-bullet order) |
| TemplateExpander.ScanBulletsMembership | lib/template-expander.js:82-87 | a key is reported iff some bullet is a placeholder for it and it does not resolve |
| TemplateExpander.ScanJobsMembership | lib/template-expander.js:80-91 | a key is reported iff some bullet of some job with an array `highlights` is an unresolved placeholder for it |
| TemplateExpander.UnexpandedTemplatesMembership | lib/template-expander.js:76-95 | `findUnexpandedTemplates` reports a key iff `work` is an array and some highlight is an unresolved placeholder for it |
| TemplateExpander.ScanBulletsCount | lib/template-expander.js:82-87 | the report has one entry per unresolved placeholder bullet, duplicates included |
| TemplateExpander.ScanBullet | lib/template-expander.js:83-87 | one step of the scanner's inner loop, using the regex engine's search, pushes the bullet's key exactly when it is an unresolved placeholder |
| TemplateExpander.ScanJobLoop | lib/template-expander.js:81-90 | the inner loop over a job's bullets builds the job's report |
| TemplateExpander.FindUnexpandedTemplates | lib/template-expander.js:76-95 | the nested loops pushing onto `unexpanded` compute exactly UnexpandedTemplates |
| TemplateExpander.ExpandBulletLogged | lib/template-expander.js:38-61 | the map callback returns the bullet's expansion and warns exactly for a placeholder whose key does not resolve |
| TemplateExpander.ExpandHighlightsLogged | lib/template-expander.js:37-63 | the `map` over a job's bullets yields the pointwise expansion and warns, in bullet order, for exactly the keys the scanner reports |
| TemplateExpander.ExpandJobLogged | lib/template-expander.js:28-63 | one pass of the work loop yields the expanded job and warns, in bullet order, for exactly the keys the scanner reports for that job |
| TemplateExpander.ExpandTemplatesLogged | lib/template-expander.js:21-68 | the loops produce ExpandTemplates, and the warnings printed are exactly the scanner's report for the input, in the same order |
| ExpanderProperties.ExpandBulletIdempotent | lib/template-expander.js:45-61 | when no registry value is a placeholder, expanding a bullet twice equals expanding it once |
| ExpanderProperties.ExpandBulletKeepsUnresolved | lib/template-expander.js:45-61 | when no registry value is a placeholder, expanding a bullet does not change what the scanner reports for it |
| ExpanderProperties.ExpandBulletLeavesOnlyUnresolved | lib/template-expander.js:47-57 | when no registry value is a placeholder, an expanded bullet that is still a placeholder names a key that does not resolve |
| ExpanderProperties.ExpandJobIdempotent | lib/template-expander.js:27-63 | when no registry value is a placeholder, expanding a job twice equals expanding it once, `highlights_ref` included |
| ExpanderProperties.ExpandTemplatesIdempotent | lib/template-expander.js:21-68 | `expandTemplates(expandTemplates(D)) == expandTemplates(D)` for every document, when no registry value is a placeholder |
| ExpanderProperties.ScanBulletsAfterExpansion | lib/template-expander.js:82-87 | when no registry value is a placeholder, scanning expanded bullets gives the same report as scanning the originals |
| ExpanderProperties.ScanJobsAfterExpansion | lib/template-expander.js:80-91 | when no registry value is a placeholder, scanning expanded jobs gives the same report as scanning the originals |
| ExpanderProperties.UnexpandedTemplatesAfterExpansion | lib/template-expander.js:76-95 | `findUnexpandedTemplates(expandTemplates(D)) == findUnexpandedTemplates(D)` for every document, when no registry value is a placeholder |
| ExpanderProperties.NoResolvablePlaceholderSurvives | lib/template-expander.js:47-57 | when no registry value is a placeholder, every placeholder left anywhere in an expanded document names a key that does not resolve |
| ExpanderProperties.ExpandTemplatesWellFormed | lib/template-expander.js:21-68 | expanding a document whose fields have distinct names, with no stray `work`, `highlights` or `highlights_ref` among the other fields, gives such a document again |
| ExpanderProperties.SingleBulletDocument | lib/template-expander.js:21-95 | a one-job, one-bullet document expands and scans exactly as its bullet does |
| ExpanderProperties.PlaceholderBullet | lib/template-expander.js:45-57 | the bullet `{{key}}` becomes the key's text and is not reported when the key resolves; otherwise it is kept and reported as `[key]` |
| ExpanderProperties.PlainBullet | lib/template-expander.js:60-61 | text that does not end in `}` is kept and not reported |
| ExpanderProperties.FalsyHighlightsRefKept | lib/template-expander.js:29 | an empty-string `highlights_ref` is kept |
| ExpanderProperties.EmptyDocumentsUnchanged | lib/template-expander.js:26 | `{}` and `{ "work": [] }` expand to themselves |
| ExpanderProperties.ThreeBulletScan | lib/template-expander.js:80-91 | the report for a one-job, three-bullet document is the three bullets' reports in order |
| ExpanderProperties.UnresolvedPlaceholderDocument | lib/template-expander.js:55-57 | a document whose only highlight is `{{key}}` for a key that does not resolve is unchanged and reports `[key]` |
| ExpanderProperties.ResolvedPlaceholderDocument | lib/template-expander.js:47-53 | a document whose only highlight is `{{key}}` for a key that resolves gets the key's text and reports nothing |
| ExpanderProperties.ResolvedJobDropsRef | lib/template-expander.js:29-53 | a job with a truthy `highlights_ref` and the highlight `{{key}}` for a resolving key loses the marker and gets the key's text |
| ExpanderProperties.MixedBulletsScan | lib/template-expander.js:76-95 | one resolving placeholder, one non-resolving placeholder and plain text in one job: only the non-resolving key is reported |
| LockedExpansion.LockedResolvesIffMember | lib/template-expander.js:51 | with the locked registry, a key resolves exactly when it is one of the nine keys |
| LockedExpansion.LockedExpansionIdempotent | lib/template-expander.js:21-68 | with the locked registry, expanding a document twice equals expanding it once |
| LockedExpansion.LockedScanAfterExpansion | lib/template-expander.js:76-95 | with the locked registry, `findUnexpandedTemplates(expandTemplates(D)) == findUnexpandedTemplates(D)` |
| LockedExpansion.LockedReportsOnlyUnknownKeys | lib/template-expander.js:85-86 | with the locked registry, every reported key is outside the nine keys |
| LockedExpansion.EveryKeyExpands | lib/template-expander.js:47-53 | for every registry key, a document whose only highlight is `{{key}}` expands to one whose only highlight is that key's stored text, and nothing is reported |
| LockedExpansion.UnknownKeyKeptAndReported | lib/template-expander.js:55-57 | for any placeholder key outside the registry, the document is kept unchanged and the key is reported once |
| LockedExpansion.NotARealKeyReported | lib/template-expander.js:55-57 | `{{not.a.real.key}}` is left unchanged and reported exactly once |
| LockedExpansion.FreeflyZeroStaysUnexpanded | lib/locked-templates.js:13-14 | `{{freefly.0}}` is left unchanged and reported |
| LockedExpansion.PlainTextPassesThrough | lib/template-expander.js:60-61 | an ordinary sentence is unchanged and not reported |
| LockedExpansion.HighlightsRefStripped | lib/template-expander.js:29-53 | a job with `highlights_ref: "freefly"` and highlight `{{freefly.1}}` loses the marker and gets the locked text |
| LockedExpansion.MixedDocumentScan | lib/template-expander.js:76-95 | a document with highlights `{{york.0}}`, `{{york.9}}` and plain text reports just `york.9` |
| PrototypeLookup.LookupAsWritten | lib/template-expander.js:51 | the as-written truthiness test holds exactly when the own-key test does, or when the key is an inherited member name that is not an own key |
| PrototypeLookup.ExpandBulletAsWritten | lib/template-expander.js:45-61 | with the real JavaScript lookup, the callback agrees with the intended one unless the key is an inherited member name that is not an own key, and then yields the inherited value |
| PrototypeLookup.BulletUnresolvedAsWritten | lib/template-expander.js:83-87 | with the real JavaScript lookup, the scanner agrees with the intended one unless the key is an inherited member name that is not an own key, and then reports nothing |
| PrototypeLookup.RegistryAvoidsInheritedNames | lib/locked-templates.js:15-34 | no registry key is the name of an `Object.prototype` member |
| PrototypeLookup.InheritedMemberSwallowed | lib/template-expander.js:51 | as written, `{{toString}}` is replaced by a function value and not reported; the intended expander keeps it and reports `toString` |
| PrototypeLookup.InheritedNamesKeptAndReported | lib/template-expander.js:55-57 | with the intended lookup, `{{name}}` for every inherited member name is kept unchanged and reported as `name` |

## Findings

| source | as written | input that shows it | evidently intended | confidence | as-written member | corrected member |
|---|---|---|---|---|---|---|
| lib/template-expander.js:51 | `LOCKED_TEMPLATES[templateKey]` on a plain object literal also finds inherited `Object.prototype` members, all truthy; the same lookup at line 85 decides what the scanner reports | the highlight `{{toString}}` (likewise `{{constructor}}`, `{{valueOf}}`, `{{__proto__}}`, ...) | an unknown key is kept as is, warned about and reported, as lines 55-57 say | high; not executed | PrototypeLookup.InheritedMemberSwallowed | PrototypeLookup.InheritedNamesKeptAndReported |

The rest of the model (`TemplateExpander.Resolves`) looks up only the registry's own entries. `PrototypeLookup.ExpandBulletAsWritten` and `PrototypeLookup.BulletUnresolvedAsWritten` show that the as-written lookup differs from it only on the twelve inherited names that are not own keys.

## Left out

- The deep copy `JSON.parse(JSON.stringify(...))`: documents are immutable values, so the input is never changed. The model's documents are already JSON values, so the copy's lossy effects do not arise: dropping `undefined` and functions, and turning `Date` values into strings.
- `console.warn`: no output channel is modelled. The warnings are returned as a list by `TemplateExpander.ExpandTemplatesLogged`.
- Property order of objects: the model stores `work`, `highlights` and `highlights_ref` apart from the other fields (`rest`), so it does not record where those keys sit among an object's keys.
- Objects as field lists: `rest` is a list of name/value pairs, so a value of the model's types can repeat a name or reuse one of the three modelled names, which no JSON object does. Such values are outside the model; `Resume.WellFormedDoc` names the values that do correspond to objects, and `ExpanderProperties.ExpandTemplatesWellFormed` shows expansion stays within them.
- Documents that are not objects: `expandTemplates(undefined)` throws at the deep copy (lib/template-expander.js:23), a `null` document throws at the `data.work` read (:26) and in the scanner at :79, and a primitive document is returned unchanged. Documents are modelled as objects only.
- `work` entries that are not objects: a `null` entry makes the source throw, and primitive entries pass through. Jobs are modelled as records only.
- The contents of nested objects and arrays that the code never inspects: these are opaque `Nested` values. JSON numbers are modelled as reals; NaN and infinities cannot appear after a JSON round trip.
- Strings are sequences of Unicode scalar values, not UTF-16 code units. The regex's `.` matches each code unit of a surrogate pair. That does not change whether a string matches or what key it captures.
- `LockedTemplates.AvailableTemplates`: returns the keys in the order the literal lists them. Nothing is claimed about JavaScript's `Object.keys` enumeration order beyond holding each key once.
- The unused local `refKey` in the `highlights_ref` branch has no effect and is not modelled.
- Registry values are not proved to not start with `{{`. What is proved is that no value ends in `}` (`LockedTemplates.RegistryValuesEndWithoutBrace`). That already rules out a value being a placeholder, and it is all that idempotence and scanner invariance need.
