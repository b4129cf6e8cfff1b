# PAPAPS land classification rule engine

PAPAPS WebGIS classifies the parcels of a reference thematic layer that fall inside a
user's area of interest. Each clipped parcel gets three attributes:

- **Arahan**: the directive. It is a concatenation of codes from A1..A6.
- **Kewajiban**: the obligation. It is a concatenation of codes from K1..K3, possibly empty.
- **Ruang**: the spatial category, `Perlindungan` (protection) or `Pemanfaatan` (utilisation).

This project models that rule engine, `calculate_attributes` in `app.py`, together with
its `to_num` helper. It also models two small pieces of the pipeline around it:

- the province-to-asset lookup that chooses the reference layer;
- the reset of `SAWIT` to 0 that is applied to every clipped feature before classification.

The engine is a pure function of one feature's attribute record, so the model is
made of datatypes, functions and lemmas.

Modules:

- `Text` (text.dfy): the string primitives the engine calls.
  - `trim()` is modelled as removing every character up to U+0020 at either end.
  - `toUpperCase()` is modelled on ASCII letters only (see "## Left out").
  - `match` of a literal alternation is modelled as substring containment.
  - `compareTo` is modelled through its sign.
- `CodeLists` (code_lists.dfy): the list operations on codes.
  - `filter(inList(...))`, `sort()` and `join('')`.
  - A splitter for two-character codes, to read a joined string back as a list.
- `Features` (features.dfy): the attribute record and its normalisation.
  - Every field is optional.
  - `If(v, v, default)` treats a missing, empty or zero value as the default.
- `Rules` (rules.dfy): the five decision steps and the obligation list.
  - The flags each test computes, and the steps as gate functions over a `(ruang, codes)` state.
  - `Classify`, which returns the triple (Arahan, Kewajiban, Ruang).
  - Reference tables that say, code by code, what each attribute must hold.
- `RuleProperties` (properties.dfy): the properties of the engine.
  - The engine agrees with the reference tables for every feature.
  - Arahan is never empty and its codes are distinct and ascending.
  - Peat only removes A5, the protective ecological function overrides the directives, and the physical-risk trigger forces protection.
  - The named scenarios: the empty feature, a padded lower-case `hl`, and a river flag `ya` with and without HL.
  - Kewajiban as an exact string: K1, K2 and K3 in that order, each present exactly when its condition holds.
- `Assets` (assets.dfy): the seven-entry province table and the asset path, with its default.
- `Pipeline` (pipeline.dfy): the `SAWIT` reset, and the facts that follow from it.
  - K1 can never appear on this path.
  - Nothing else changes.

Three facts about the code shape the model:

- Only `feg_kghltr` is compared case-sensitively. It is trimmed but not upper-cased
  (app.py:77), so the two ecological-function tests compare it exactly
  (`Rules.IsLindungEg`, `Rules.IsBudidayaEg`). Every other text field is trimmed and
  upper-cased before it is compared.
- The categories are the literal strings `Perlindungan` and `Pemanfaatan`.
- Eleven attributes are read (app.py:75-85), and all of them are modelled.

## Model

| member | source | states |
|---|---|---|
| Text.Trim | app.py:75-85 | the trimmed string starts and ends with a non-space character and is no longer than the input |
| Text.TrimPadded | app.py:75-85 | trimming a clean core surrounded by any spaces gives exactly that core |
| Text.TrimIdempotent | app.py:75-85 | trimming twice is trimming once |
| Text.ToUpper | app.py:75-85 | upper-casing keeps the length, maps each character by `UpperChar` and leaves no lower-case letter |
| Text.ToUpperIdempotent | app.py:75-85 | upper-casing twice is upper-casing once |
| Text.Contains | app.py:92 | true exactly when the pattern occurs at some position of the string |
| Text.UpperChar | app.py:75-85 | a lower-case ASCII letter maps to its upper-case letter, every other character is kept, and no result is a lower-case letter |
| Text.Compare | app.py:87 | the sign is -1, 0 or 1, and it is 0 exactly when the strings are equal, so `compareTo(x).eq(0)` is string equality |
| Text.CompareFlip | app.py:107 | swapping the operands negates the comparison |
| Text.CompareTrans | app.py:107 | comparison is transitive, and strict when either step is strict |
| CodeLists.Insert | app.py:107 | places a code before the first element it does not exceed; its contract is carried by CodeLists.InsertMembers, InsertSorted and InsertAscending |
| CodeLists.InsertMembers | app.py:107 | inserting adds the code to the multiset and keeps every element |
| CodeLists.Sort | app.py:107-116 | `sort()`; its contract is carried by CodeLists.SortMembers (a permutation), SortAscending (ordered) and AscendingUnique (any correct sort gives the same list) |
| CodeLists.SortMembers | app.py:107 | `sort()` permutes its input: the same multiset, and so the same members |
| CodeLists.SortAscending | app.py:107 | the sorted list is in order, and strictly ascending when the input has no repeats |
| CodeLists.AscendingUnique | app.py:107 | two strictly ascending lists with the same members are equal, so the joined result is the same whatever sort algorithm is used |
| CodeLists.FilterIn | app.py:93-105 | `filter(inList('item', …))`; its contract is carried by CodeLists.FilterMembers and FilterAscending |
| CodeLists.FilterMembers | app.py:93 | `filter(inList)` keeps exactly the members found in the allowed list and never grows |
| CodeLists.FilterAscending | app.py:93 | filtering keeps an ascending list ascending |
| CodeLists.Join | app.py:107-116 | `join('')`; CodeLists.SplitJoin shows that the joined codes can be read back, and JoinAppend that joining distributes over concatenation |
| CodeLists.JoinAppend | app.py:107-116 | joining a concatenation is the concatenation of the two joins |
| CodeLists.SplitJoin | app.py:107 | joining two-character codes doubles the length, and splitting the result gives the codes back |
| Features.TextOr | app.py:75-85 | a missing or empty text value gives the default, and any other value is kept |
| Features.NumOr | app.py:78-85 | a missing or zero number gives the default, and any other value is kept |
| Features.TextField | app.py:75-84 | a normalised text field is trimmed and has no lower-case letter |
| Features.Normalise | app.py:75-85 | every upper-cased field is trimmed and upper-case, and `feg_kghltr` is trimmed (its case-sensitive use: RuleProperties.FlagsMeaning) |
| Rules.ToNum | app.py:73 | the number is 1 when the condition holds and 0 when it does not |
| Rules.MatchesAny | app.py:92 | a literal alternation matches exactly when some alternative occurs in the string |
| Rules.IsHl | app.py:87 | protection forest exactly when F_KWS is `HL` or `HUTAN LINDUNG` |
| Rules.IsGambut | app.py:92 | peat exactly when PIPPIB contains `GAMBUT` or `KAWASAN` |
| Rules.IsLindungEg | app.py:95 | the protective function exactly when trimmed feg_kghltr is `Indikatif Fungsi Lindung E.G.`, case included |
| Rules.IsBudidayaEg | app.py:96 | the cultivation function exactly when trimmed feg_kghltr is `Indikatif Fungsi Budidaya E.G.`, case included |
| Rules.IsTrigger | app.py:101-102 | the trigger fires exactly when PL2024_ID is in the six-id list, Ketinggian is 2000, or any of the three buffer flags is `YA` |
| Rules.IsK3 | app.py:112 | the rehabilitation obligation applies exactly when RURHL is `RURHL` or KRITIS contains `KRITIS` |
| Rules.Tests | app.py:87-112 | the six tests and the SAWIT value on the normalised attributes; each test's meaning is the contract of its Is… function |
| Rules.FlagsOf | app.py:75-112 | the flags of a feature: normalisation followed by the tests; stated attribute by attribute in RuleProperties.FlagsMeaning |
| Rules.ForestGate | app.py:87-90 | step 1; its contract is Rules.ForestGateSpec |
| Rules.PeatGate | app.py:92-93 | step 2; its contract is Rules.PeatGateSpec |
| Rules.EcoGate | app.py:95-98 | step 3; its contract is Rules.EcoGateSpec |
| Rules.TriggerGate | app.py:100-105 | step 4; its contract is Rules.TriggerGateSpec |
| Rules.FinalState | app.py:87-105 | steps 1 to 4 in order; its contract is RuleProperties.FinalStateSpec |
| Rules.DirectiveList | app.py:107 | fallback then sort; never empty, distinct, ascending and exactly the directive table (RuleProperties.DirectiveListSpec) |
| Rules.ObligationList | app.py:109-114 | K2, K3 and K1 in the order they are added; distinct and exactly the obligation table (RuleProperties.ObligationListSpec) |
| Rules.Decide | app.py:87-116 | Arahan, Kewajiban and Ruang from the flags; the three reference tables hold (RuleProperties.ArahanTable, KewajibanTable, RuangTable) |
| Rules.Classify | app.py:72-116 | `calculate_attributes`; the three reference tables hold for every feature (RuleProperties.ClassifySpec) |
| Rules.ForestGateSpec | app.py:87-90 | a protection forest starts Perlindungan with A1, A2, A4 and any other feature starts Pemanfaatan with A1..A5, in both cases as valid ascending codes |
| Rules.PeatGateSpec | app.py:92-93 | on peat A5 is removed and nothing else; Ruang is untouched and the list stays ascending |
| Rules.EcoGateSpec | app.py:95-98 | the protective function gives exactly (Perlindungan, [A6]); otherwise the cultivation function removes A5 only, and Ruang is untouched |
| Rules.TriggerGateSpec | app.py:100-105 | the trigger sets Perlindungan and removes A5 and A6, and for a protection forest also A1 and A3; without the trigger nothing changes |
| Rules.Fallback | app.py:107 | the list is never empty: an empty list becomes `[A6]`, and a non-empty list is kept as it is |
| Rules.ObligationsAscending | app.py:116 | K1..K3 are in ascending string order, which puts Kewajiban's codes in the order K1, K2, K3 |
| RuleProperties.FlagsMeaning | app.py:75-112 | each flag of a feature, stated in terms of its raw attributes after defaulting, trimming and upper-casing |
| RuleProperties.EarlyStepsSpec | app.py:87-98 | after the first three steps the codes are valid; with the protective function the state is exactly (Perlindungan, [A6]), otherwise it holds the codes of the first three gates |
| RuleProperties.FinalStateSpec | app.py:87-105 | after the four steps the codes are distinct and ascending, Ruang follows its reference table, and the codes follow the directive table, except that the protective function followed by a trigger leaves nothing |
| RuleProperties.FallbackSorted | app.py:107 | the fallback and sort give a non-empty ascending list with exactly the directive table's members |
| RuleProperties.DirectiveListSpec | app.py:90-107 | the directive list is never empty, is distinct and ascending, and holds exactly the codes the directive table names |
| RuleProperties.ObligationListSpec | app.py:109-114 | the obligation list has no repeats and holds K1 iff SAWIT is 1, K2 iff either ecological function holds, K3 iff the rehabilitation test holds |
| RuleProperties.ObligationsSorted | app.py:116 | the sorted obligation list is strictly ascending with exactly the obligation table's members |
| RuleProperties.ArahanTable | app.py:90-107 | Arahan is a non-empty concatenation of distinct ascending directive codes, and holds each code exactly when the table says so |
| RuleProperties.KewajibanTable | app.py:109-116 | Kewajiban is a concatenation of distinct ascending obligation codes (possibly none), and holds each code exactly when the table says so |
| RuleProperties.KewajibanInOrder | app.py:109-116 | Kewajiban lists the obligation codes in the order K1, K2, K3 |
| RuleProperties.ObligationsInOrder | app.py:116 | the codes of a list taken in the order K1, K2, K3 and joined give K1, K2, K3 each exactly when present |
| RuleProperties.KewajibanString | app.py:109-116 | Kewajiban is exactly the string of K1 if SAWIT is 1, then K2 if either ecological function holds, then K3 if the rehabilitation test holds |
| RuleProperties.RuangTable | app.py:88-104 | Ruang is Perlindungan exactly when the feature is a protection forest, has the protective function or triggers, and Pemanfaatan otherwise |
| RuleProperties.ClassifySpec | app.py:72-116 | the three tables hold together for every feature |
| RuleProperties.ProtectionIsKept | app.py:88-104 | no step after the first turns Perlindungan back into Pemanfaatan |
| RuleProperties.ArahanIs | app.py:107 | an ascending list with exactly the table's members is the list that Arahan joins |
| RuleProperties.LindungDecision | app.py:95-111 | with the protective function, Arahan is exactly A6, Ruang is Perlindungan and Kewajiban holds K2, whatever the other flags are |
| RuleProperties.LindungOverride | app.py:77-111 | any feature whose trimmed feg_kghltr is the protective function gets A6, Perlindungan and K2 |
| RuleProperties.PeatDecision | app.py:92-93 | turning the peat flag on keeps Ruang and Kewajiban, and removes A5 and only A5 from Arahan |
| RuleProperties.PeatOnlyRemovesA5 | app.py:76-93 | giving a feature a PIPPIB value that matches the peat test keeps Ruang and Kewajiban, and Arahan loses A5 and nothing else |
| RuleProperties.FlagsIgnorePippib | app.py:76-112 | PIPPIB is read by the peat test alone |
| RuleProperties.NoObligation | app.py:109-116 | without either ecological function, the rehabilitation test or SAWIT 1, Kewajiban is empty |
| RuleProperties.UntriggeredArahan | app.py:87-107 | without the trigger and the protective function, a protection forest gets A1A2A4; any other feature gets A1A2A3A4A5, or A1A2A3A4 when peat or the cultivation function holds |
| RuleProperties.TriggeredArahan | app.py:100-107 | with the trigger and without the protective function, Arahan is A2A4 for a protection forest and A1A2A3A4 otherwise |
| RuleProperties.PlainDecision | app.py:87-116 | a feature with no flag set is (A1A2A3A4A5, empty, Pemanfaatan) |
| RuleProperties.BlankTests | app.py:87-112 | on blank values only the protection-forest test and the river-flag trigger can hold |
| RuleProperties.MissingFlags | app.py:75-112 | a feature without attributes sets no flag |
| RuleProperties.MissingScenario | app.py:72-116 | a feature without attributes is classified (A1A2A3A4A5, empty, Pemanfaatan) |
| RuleProperties.PaddedHlScenario | app.py:75-116 | with only F_KWS " hl " the feature is classified (A1A2A4, empty, Perlindungan) |
| RuleProperties.RiverScenario | app.py:75-116 | Sungai_Kec "ya" alone gives (A1A2A3A4, empty, Perlindungan), and together with F_KWS HL it gives (A2A4, empty, Perlindungan) |
| Assets.Suffix | app.py:136-139 | a province in the table gets its own suffix, any other province gets JatengJogja, and the suffix is always one of the table's values |
| Assets.AssetPath | app.py:139 | the path is the asset prefix followed by the province's suffix |
| Assets.OptionsAreKnown | app.py:125-138 | the provinces offered by the selector are exactly the provinces of the table |
| Assets.OptionsHaveOwnAsset | app.py:125-139 | two different provinces of the selector read two different assets |
| Assets.UnknownIsJawaTengah | app.py:139 | a province the table does not know reads the Jawa Tengah asset |
| Pipeline.ResetSawit | app.py:144 | the reset feature has SAWIT 0 and is otherwise the original feature |
| Pipeline.ClassifyClipped | app.py:144-147 | classification after the SAWIT reset; it never yields K1 (Pipeline.ClippedNeverK1) and otherwise agrees with Rules.Classify (Pipeline.ClippedAgrees) |
| Pipeline.FlagsIgnoreSawit | app.py:144 | the reset changes only the oil-palm value among a feature's flags |
| Pipeline.DecideIgnoresSawit | app.py:87-116 | the oil-palm value changes neither Arahan nor Ruang, and it changes Kewajiban only through the test SAWIT = 1 |
| Pipeline.ClippedNeverK1 | app.py:114-147 | after the reset, no classified feature carries obligation K1 |
| Pipeline.ClippedAgrees | app.py:144-147 | after the reset Arahan and Ruang are as without it, and so is Kewajiban unless the feature carried SAWIT 1 |

## Left out

- Earth Engine authentication and the secrets store (app.py:22-40): these are credentials and remote service set-up.
- The geometry sanitizer `get_sanitized_geometry` (app.py:45-67): it does zip extraction, shapefile reading, reprojection and repair of floating-point geometry.
- The overlay with `filterBounds` and `intersection` (app.py:143): this is remote geometry computation. A clipped feature is modelled as its attribute record.
- The sliver buffer and the equal-area area computation (app.py:150-153): floating-point geodesy.
- The dissolve by (Arahan, Kewajiban, Ruang) and the CRS setting (app.py:166-169): floating-point area sums done by a geometry library.
- The export, download, map preview and every other part of the user interface (app.py:121-196): I/O and presentation.
- Rules.Classify: returns the triple of derived attributes rather than the feature updated with them (`feature.set`, app.py:116); the feature's other attributes and its geometry are passed through unchanged and are not modelled.
- Features.Feature: each attribute has one type, text or integer. A number stored in a text field, or text in a numeric field, makes the server-side casts fail, and that case is not modelled. Floating-point values of PL2024_ID, Ketinggian and SAWIT are represented by integers.
- Text.ToUpper: upper-cases ASCII letters only, not the full Unicode case mapping of `toUpperCase`.
- Text.Compare: gives only the sign of `compareTo`, not its magnitude. The engine only ever tests the result with `eq(0)` or uses it to sort.
- CodeLists.Sort: the server's sorting algorithm is not known, so an insertion sort stands in for it. `CodeLists.AscendingUnique` shows that any sort with this order gives the same result on lists without repeats, and every list sorted here has none.
