# Select2 widget core: autocomplete matching and render configuration

This project models, in Dafny, the two deterministic parts of the Drupal
Select2 module:

- **`EntityAutocompleteMatcher::getMatches`** (`matcher.dfy`, module
  `AutocompleteMatcher`). It resolves the match operator (default
  `CONTAINS`) and page size (default 10) from the selection settings. It
  computes the offset `page * match_size`. It builds the handler options as
  the PHP array union `$selection_settings + [target_type, handler]`, where
  the settings win on a key collision. It asks the selection plugin manager
  for a handler. When a search string is set, it asks the handler for its
  bundle → id → label listing and flattens that listing, in order, into
  `{id, text}` matches with decoded labels. The class keeps its
  `selectionManager`. `GetMatches` is an imperative method with the source's
  two nested loops (moved into `FlattenLabels`). It is proved equal to the
  specification function `Matches`, and the lemmas state the properties of
  `Matches`.
- **The Select2 element's pre-render pipeline** (`select2.dfy`, module
  `Select2Element`), as `tests/src/Unit/Element/Select2Test.php` pins it
  down. `PreRender` maps an element (name, `#multiple`, `#required`,
  optional `#placeholder`, `#select2` user settings) and the environment
  (text direction, language, active theme) to three things: the `name`
  attribute, the optional `multiple` attribute, and the eleven-key ordered
  record that `data-select2-config` encodes. Every data-provider case and the
  placeholder test is a lemma.

Shared pieces: `php_array.dfy` (module `PhpArray`) holds PHP values, ordered
string-keyed arrays, `empty()`, lookup and the `+` union.
`wrappers.dfy` holds `Option` and `Result`.

The collaborators are parameters:
- the selection plugin manager is a function from handler options to a
  handler or an error;
- a handler is a function from (search, operator, limit, offset) to a
  listing or an error;
- `Html::decodeEntities` is the function parameter `decodeEntities`;
- the language and theme services are the `Environment` record.

## Model

| member | source | states |
|---|---|---|
| PhpArray.IsEmpty | src/EntityAutocompleteMatcher.php:64-65 | among the modelled values, PHP's `empty()` holds exactly for null, false, 0, "", "0" and the empty array |
| PhpArray.Lookup | src/EntityAutocompleteMatcher.php:64-65 | `$a[k]` is present exactly when `k` is a key of the array, and then it is a value stored under `k` |
| PhpArray.OrDefault | src/EntityAutocompleteMatcher.php:64-65 | `!empty($a[k]) ? $a[k] : $d` returns the stored value when it is non-empty. It returns the default when the key is missing or its value is empty. So it is never empty when the default is not |
| PhpArray.Union | src/EntityAutocompleteMatcher.php:56-59 | `$a + $b` starts with `$a` unchanged. Its entries are those of `$a` plus those of `$b` whose key `$a` lacks |
| PhpArray.UnionLookup | src/EntityAutocompleteMatcher.php:56-59 | on a key collision the union keeps the left operand's value; any other key looks up as in the right operand |
| PhpArray.UnionDistinct | src/EntityAutocompleteMatcher.php:56-59 | the union of two arrays with distinct keys has distinct keys |
| AutocompleteMatcher.HandlerOptions | src/EntityAutocompleteMatcher.php:56-59 | the handler options are the settings, unchanged, followed by at most two more entries. They hold the `target_type` and `handler` entries of the call unless the settings already have those keys |
| AutocompleteMatcher.HandlerOptionsClosedForm | src/EntityAutocompleteMatcher.php:56-59 | the options are exactly the settings, then the `target_type` entry if that key is missing, then the `handler` entry if that key is missing, in this order |
| AutocompleteMatcher.HandlerOptionsKeepSettings | src/EntityAutocompleteMatcher.php:56-59 | every key other than `target_type` and `handler` looks up in the options exactly as in the settings |
| AutocompleteMatcher.HandlerOptionsAdded | src/EntityAutocompleteMatcher.php:56-59 | `target_type` and `handler` take the call's arguments only when the settings lack those keys; otherwise the setting is kept |
| AutocompleteMatcher.HandlerOptionsDistinct | src/EntityAutocompleteMatcher.php:56-59 | the handler options are a well-formed PHP array when the settings are |
| AutocompleteMatcher.MatchOperator | src/EntityAutocompleteMatcher.php:64 | the operator is never empty, and it is CONTAINS or the `match_operator` setting |
| AutocompleteMatcher.MatchOperatorChoice | src/EntityAutocompleteMatcher.php:64 | a missing or empty `match_operator` gives CONTAINS; a non-empty one is used as given |
| AutocompleteMatcher.MatchSize | src/EntityAutocompleteMatcher.php:65 | the page size is never empty, and it is 10 or the `match_size` setting |
| AutocompleteMatcher.MatchSizeChoice | src/EntityAutocompleteMatcher.php:65 | a missing, null, false, 0, "", "0" or empty-array `match_size` gives 10; a non-empty one is used as given |
| AutocompleteMatcher.ToNumber | src/EntityAutocompleteMatcher.php:66 | the integer PHP uses for a `*` operand: an integer is itself, null and false are 0, true is 1, a string of decimal digits is the number it writes, arrays are refused, and an accepted string starts with a digit or a sign |
| AutocompleteMatcher.ToNumberOfDecimalString | src/EntityAutocompleteMatcher.php:66 | a string that writes an integer in decimal, also with a leading `+`, is read back as that integer |
| AutocompleteMatcher.Offset | src/EntityAutocompleteMatcher.php:66 | `$page * $match_size` succeeds exactly when PHP can read the size as an integer, and is `page * size` for an integer size. Otherwise it is an unsupported-operand error |
| AutocompleteMatcher.DecodedEntries | src/EntityAutocompleteMatcher.php:70-72 | one match per entry, in order, with that entry's id and its decoded label |
| AutocompleteMatcher.Flatten | src/EntityAutocompleteMatcher.php:69-73 | the number of matches is the total number of entries over all bundles |
| AutocompleteMatcher.FlattenAt | src/EntityAutocompleteMatcher.php:69-73 | entry `j` of bundle `g` becomes the match at position (entries before bundle `g`) + `j`, with its id and its decoded label. So the order is bundle order, then entry order |
| AutocompleteMatcher.FlattenIgnoresBundleNames | src/EntityAutocompleteMatcher.php:69-70 | the bundle keys play no part in the result |
| AutocompleteMatcher.FlattenLabels | src/EntityAutocompleteMatcher.php:69-73 | the nested loops that append to `$matches` produce exactly `Flatten` of the handler's listing |
| AutocompleteMatcher.Matches | src/EntityAutocompleteMatcher.php:53-77 | `getMatches` as a function: a failure to get the handler instance is the result, a null search string gives an empty list once the instance exists, and a page size PHP cannot multiply is an error |
| AutocompleteMatcher.HandlerArguments | src/EntityAutocompleteMatcher.php:62-73 | with a search string, the handler gets the string, the resolved operator, limit = match size and offset = page * match size. Its listing is flattened and decoded, and its error is passed on |
| AutocompleteMatcher.DefaultQuery | src/EntityAutocompleteMatcher.php:64-66 | without `match_operator` and `match_size`, the handler is asked for CONTAINS matches with limit 10 and offset page * 10 |
| AutocompleteMatcher.AccessDeniedPropagates | src/EntityAutocompleteMatcher.php:48-49 | an access denial from the handler reaches the caller as that error, not as an empty page |
| AutocompleteMatcher.EntityAutocompleteMatcher.constructor | src/EntityAutocompleteMatcher.php:26-28 | the matcher stores the selection plugin manager it is given |
| AutocompleteMatcher.EntityAutocompleteMatcher.GetMatches | src/EntityAutocompleteMatcher.php:53-77 | the method's outcome is `Matches` of the stored manager and the arguments |
| Select2Element.PreRender | tests/src/Unit/Element/Select2Test.php:78-80 | the three pre-render stages together: `name` gets `[]` and the `multiple` attribute is set exactly when `#multiple` is, and the configuration has the eleven keys in order |
| Select2Element.DefaultConfig | tests/src/Unit/Element/Select2Test.php:93-105 | the default record has exactly the eleven keys in their fixed order |
| Select2Element.Overwrite | tests/src/Unit/Element/Select2Test.php:163-181 | the merged record keeps the default keys in their order. Each value is the user setting of that key when one exists, else the default |
| Select2Element.ConfigKeysDistinct | tests/src/Unit/Element/Select2Test.php:93-105 | the configuration has eleven distinct keys |
| Select2Element.ConfigShape | tests/src/Unit/Element/Select2Test.php:93-105 | for every input, the configuration has exactly the eleven keys, once each, in the fixed order |
| Select2Element.ConfigValueAt | tests/src/Unit/Element/Select2Test.php:89-181 | the `i`-th key's value is the user setting for it when there is one, otherwise the `i`-th default |
| Select2Element.ConfigValue | tests/src/Unit/Element/Select2Test.php:163-181 | a key's value is the user setting when there is one, otherwise the default for that key |
| Select2Element.NoUserSettings | tests/src/Unit/Element/Select2Test.php:89-162 | with empty `#select2` the configuration is the default record |
| Select2Element.AllowClearDefault | tests/src/Unit/Element/Select2Test.php:89-162 | without a user `allowClear`, `allowClear` is true exactly when the element is neither required nor multiple, in all four combinations |
| Select2Element.MultipleDefault | tests/src/Unit/Element/Select2Test.php:89-162 | without a user `multiple`, the configuration's `multiple` is `#multiple` |
| Select2Element.PlaceholderDefault | tests/src/Unit/Element/Select2Test.php:190-223 | `placeholder` is the empty string without `#placeholder`, and equals `#placeholder` when it is set |
| Select2Element.EnvironmentValues | tests/src/Unit/Element/Select2Test.php:22-42 | `dir`, `language` and `theme` come from the language and theme services |
| Select2Element.RemainingDefaults | tests/src/Unit/Element/Select2Test.php:65-105 | `tags` false, `maximumSelectionLength` 0, `tokenSeparators` empty, `selectOnClose` false and `width` 100% |
| Select2Element.UserSettingWins | tests/src/Unit/Element/Select2Test.php:163-181 | a user setting for a configuration key always wins over the default |
| Select2Element.ProviderMultipleRequired | tests/src/Unit/Element/Select2Test.php:89-107 | data-provider case (multiple, required): the expected `multiple`, `name` and configuration |
| Select2Element.ProviderSingleRequired | tests/src/Unit/Element/Select2Test.php:108-125 | data-provider case (single, required): the expected `name` and configuration |
| Select2Element.ProviderMultipleOptional | tests/src/Unit/Element/Select2Test.php:126-144 | data-provider case (multiple, optional): the expected `multiple`, `name` and configuration |
| Select2Element.ProviderSingleOptional | tests/src/Unit/Element/Select2Test.php:145-162 | data-provider case (single, optional): the expected `name` and a configuration with `allowClear` true |
| Select2Element.ProviderOverwrittenDefaults | tests/src/Unit/Element/Select2Test.php:163-181 | `#select2 = [allowClear => FALSE, multiple => TRUE]` gives those values in the configuration, while `name` stays `field_foo` |
| Select2Element.PlaceholderPropertyRendering | tests/src/Unit/Element/Select2Test.php:190-223 | `#placeholder => 'test-placeholder'` shows up in the configuration |

## Left out

- Autocomplete mode, a non-empty `#autocreate` and `#cardinality > 0` are not modelled. The tests only use `#autocomplete` FALSE or absent, `#cardinality` 0 or absent, and `#autocreate` empty or absent, and the element class is not part of this model. So `Element` has no such fields, and `tags`, `maximumSelectionLength`, `tokenSeparators` and `selectOnClose` take their tested defaults.
- The split of the work among `preRenderSelect`, `preRenderAutocomplete` and `preRenderOverwrites` is not modelled. The element class is not part of this model, so `PreRender` is their composition.
- The tests compare only `name`, `multiple` and `data-select2-config`. The other attributes, the extension of `#attributes`, the options list, the library attachment and string translation are not modelled. A single-value element gets no `multiple` attribute; the tests do not check this.
- `Json::encode` is not modelled. The configuration is the ordered record it would encode, so key order is part of the model.
- Select2Element.Overwrite: a user setting replaces the default whole. User keys outside the eleven are dropped, and all eleven keys, `dir`, `language`, `theme` and `placeholder` included, can be overridden; the tests decide neither, since they only override `allowClear` and `multiple`. Nested merging of list values is not modelled either.
- The selection plugin manager's resolution and the handler's entity query are external plugin and storage I/O. They are abstract function values. `PluginNotFound` and `AccessDenied` stand for the exceptions those collaborators throw; HTTP exception classes are not modelled.
- `Html::decodeEntities` is an uninterpreted function parameter.
- AutocompleteMatcher.Offset: PHP's integer coercion is modelled for null, booleans, integers and plain decimal strings with an optional `-` or `+` sign. Arrays and all other strings give an unsupported-operand error. For arrays and non-numeric strings this is PHP 8's TypeError. It differs from PHP for leading-numeric strings ("5abc"), float strings ("2.5", "1e3") and whitespace-padded strings, which PHP 8 accepts (some with a warning), and from PHP 7, which turns non-numeric strings into 0 with a warning. Float results and 64-bit overflow of `$page * $match_size` are not modelled; integers are unbounded.
- PhpArray.IsEmpty: `Value` has no float or object case, so PHP's empty `0.0`, float settings such as a `match_size` of `2.0`, and objects are not modelled.
- PHP's normalisation of integer-like string keys ("5" read as 5) is not modelled. Settings keys are strings.
- The optional-argument defaults of `getMatches` (`$string = ''`, `$page = 0`) are not Dafny default parameters. The caller passes `Some("")` and `0`. A null string is `None`.
- The handler's result is an ordered list of (bundle, entries) pairs, since PHP arrays are ordered. The model assumes nothing about key uniqueness inside it.
