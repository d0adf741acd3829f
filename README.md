# Flare\Formly in Dafny

A model of `Flare\Formly`, a Laravel helper that produces Twitter-Bootstrap form
markup. It fills in each field's value from flashed old input, from an explicit
value, or from form-level defaults. It adds an `id` derived from the field name,
builds the label (with the `.req` required marker), and wraps each field in a
`control-group` div with optional validation-error styling. It also settles the
CSS class of the form tag and of the submit and reset buttons.

Files:

- `php.dfy`, module `Php`: the PHP semantics the helper depends on. These are
  `empty()` on scalars and strings (`""` and `"0"` are empty), `strpos(...) === false`
  as a substring test (`Strpos`, `Contains`), `substr($s, -$n)`,
  `str_replace($m, '', $s)` (`StrRemove`) and `implode('', ...)`.
- `formly.dfy`, module `Flare`: the configuration record, the pure rules as
  functions, and the class `Formly` with its fields and methods. Only the
  constructor, `SetOptions` (one `Assign` per setting) and `SetDefaults` change
  the fields.
  The builders read the fields and build their result step by step, as the PHP
  does. Each builder is proved equal to the spec function it uses.
- `formly_properties.dfy`, module `FormlyProperties`: lemmas that relate those
  functions. They cover first-match priority, idempotence of the class merges,
  marker stripping, the wrapper layout, and option assignment.

The Laravel facades are parameters, not models. A `Request` carries the old
input, the flashed error messages, `URI::current()` and the `Form::token()`
markup. A `Tags` record carries the `Form::*` tag builders as uninterpreted
functions.

Three behaviours of the code a reader might not expect:

- The required marker is removed everywhere in the label, not only at its end.
  `str_replace` removes every occurrence: see `LeadingMarkerAlsoRemoved`.
- `open` keeps a class that contains `form-` anywhere (for example
  `myform-x`), not only one that has a token starting with `form-`.
- An action of `"0"` counts as missing, as with `""`. The doc comment says the
  action "defaults to the current uri" (formly.php:139), and the comment at
  formly.php:147 speaks of an action that "has not been specified", but the `?:`
  at formly.php:148 also replaces the falsy string `"0"`.

## Model

| member | source | states |
|---|---|---|
| Php.Strpos | formly.php:155 | `strpos` returns the first index where the needle occurs, with no earlier occurrence; it returns `false` (None) exactly when the needle occurs nowhere. The index is a character index, not PHP's byte offset; the helper only compares it with `false` (formly.php:155, 424) |
| Php.Contains | formly.php:155 | `strpos($h, $n) !== false`: the needle occurs at some index of the haystack (`Strpos` returns None exactly when this fails) |
| Php.SubstrFromEnd | formly.php:327 | `substr($s, -$n)` is a suffix of `s`, of length `n` when `0 < n <= |s|`, and the whole string when `n` is 0 or longer than `s` |
| Php.SubstrFromEndIsSuffixTest | formly.php:327 | for a non-empty marker, `substr($label, -strlen($m)) == $m` holds exactly when the label ends with the marker |
| Php.StrRemove | formly.php:329 | `str_replace($m, '', $s)` never lengthens the string and leaves it unchanged for an empty marker |
| Php.StrRemoveAbsent | formly.php:329 | removing a marker that does not occur changes nothing |
| Php.StrRemoveLeading | formly.php:329 | a marker at the front is deleted and the scan carries on after it |
| Php.StrRemoveFirst | formly.php:329 | when the first occurrence of the marker comes right after `p`, the result is `p` followed by the removal applied to the rest |
| Php.StrRemoveTrailing | formly.php:329 | when the marker occurs only at the end of `p + m`, the result is exactly `p` |
| Php.EmptyStr | formly.php:151 | `empty()` on a string: exactly `""` and `"0"` are empty (used at formly.php:151, 293, 303, 324, 327) |
| Php.IsEmpty | formly.php:363-369 | `empty()` on a scalar: `null`, `false`, `0`, `""` and `"0"` are empty, every other scalar is not |
| Php.EmptyValues | formly.php:363-369 | `IsEmpty` holds for exactly the five scalars `null`, `false`, `0`, `""` and `"0"` |
| Php.Implode | formly.php:400 | `implode('', $buttons)`: the buttons concatenated in order, with no separator |
| Php.ImplodeAppend | formly.php:400 | `implode('', a + b)` is `implode('', a)` followed by `implode('', b)` |
| Flare.CalculateValue | formly.php:349-374 | non-null old input is returned as is, even when empty; without it, a non-empty explicit value; then a non-empty form default; otherwise `''` |
| Flare.SetAttributes | formly.php:381-389 | the map is unchanged when `name_as_id` is off or an `id` is given; otherwise exactly one key `id = id_prefix . name` is added; existing entries are never changed |
| Flare.TextareaAttrs | formly.php:214-219 | after set_attributes, `rows` is always present: the caller's value if given, else `4`; nothing else changes |
| Flare.OpenAttrs | formly.php:150-158 | an empty or missing class becomes `form_class`; a class without `form-` gets `" " . form_class` appended; a class with `form-` is kept; other attributes are untouched |
| Flare.SubmitAttrs | formly.php:413-427 | `type=submit`; a missing class becomes the button class; a class that lacks it gets it appended after a space; otherwise the class is kept; afterwards the class always contains the button class |
| Flare.ResetAttrs | formly.php:523-527 | `type=reset`; the class becomes the old class (missing reads as `''`) followed by `" btn"`; other attributes are untouched |
| Flare.Label | formly.php:321-335 | no label for an empty label; a label ending with a non-empty marker gets prefix + label with all markers removed + suffix, and class `control-label <required_class>`; any other label is kept, with class `control-label` |
| Flare.BuildLabel | formly.php:321-335 | `''` for an empty label; otherwise `Form::label` receives the field name and the text and class from `Label` |
| Flare.FirstError | formly.php:291 | the field's first flashed error message, or `''` when the field has none |
| Flare.GroupClass | formly.php:292-296 | `control-group <control_group_error>` exactly when both the error class and the field's error are non-empty; `control-group` otherwise |
| Flare.DefaultConfig | formly.php:33-78 | the ten option field initialisers: `form-horizontal`, token on, ids on, `field_`, `.req`, `''`, `' *'`, `label-required`, `error`, inline errors off |
| Flare.Key | formly.php:113 | the property name `$key` that a setting assigns (`form_class`, `auto_token`, ...) |
| Flare.Read | formly.php:113 | `$this->$key`: the current value of the option named `key`, or none for a name that is not an option field |
| Flare.Attr | formly.php:151 | `$attributes[$k]` read as a string: a missing key reads as null, that is `''` (also at formly.php:526) |
| Flare.VariantName | formly.php:439-514 | the `$btn_class` each `submit_*` shortcut passes: none (so `btn`) for `submit_default`, then `primary`, `info`, `success`, `warning`, `danger`, `inverse` |
| Flare.ShowsInlineError | formly.php:303 | `display_inline_errors && ! empty($error)`: the condition under which the error span is emitted |
| Flare.GroupOpen | formly.php:298 | the opening `<div class="...">` of the control group, carrying `GroupClass` of the field's error |
| Flare.ControlsOpen | formly.php:300 | the opening `<div class="controls">` followed by `PHP_EOL` |
| Flare.WrapperClose | formly.php:308-309 | the two closing `</div>` of the controls and the control group, followed by `PHP_EOL` |
| Flare.ButtonsHtml | formly.php:400 | `is_array($buttons) ? implode('', $buttons) : $buttons`: a single button as given, an array concatenated in order |
| Flare.HasOldInput | formly.php:357 | `Input::old($name) !== null`: the field has flashed input that is not null |
| Flare.DefaultFor | formly.php:369 | `$this->defaults->$name`, reading as null when the form has no default for the field |
| Flare.ApplySetting | formly.php:113 | `$this->$key = $value` for one setting: that option field takes the value (see `ApplySettingEffect`) |
| Flare.ApplySettings | formly.php:111-114 | the settings assigned one after the other, in order (see `ApplySettingsAppend`, `LastSettingWins`) |
| Flare.ButtonClass | formly.php:416-419 | the normalised `$btn_class`: `btn` stays `btn`, anything else `x` becomes `btn btn-x`; it always starts with `btn` |
| Flare.IsRequired | formly.php:327 | the required test: a non-empty marker (in PHP's `empty()` sense) that `substr($label, -strlen($marker))` equals |
| Flare.InlineError | formly.php:303-306 | the `help-inline` span is emitted, and is non-empty, exactly when inline errors are on and the field's error is non-empty |
| Flare.WrapperHtml | formly.php:289-311 | build_wrapper's markup: the control-group div, the label, the controls div, the field, the inline error and two closing divs (its layout is stated by the wrapper lemmas) |
| Flare.Formly.Configuration | formly.php:33-78 | the ten public option fields of the instance, read together as one `Config` |
| Flare.Formly.constructor | formly.php:86-89 | the options take the PHP field initialisers (`form-horizontal`, token on, ids on, `field_`, `.req`, `''`, `' *'`, `label-required`, `error`, inline errors off) and the defaults are the given ones |
| Flare.Formly.SetOptions | formly.php:107-117 | the options become those of the settings applied in order; the defaults are untouched |
| Flare.Formly.Assign | formly.php:113 | one setting assigns its own option field |
| Flare.Formly.SetDefaults | formly.php:126-133 | a non-empty map replaces the defaults; an empty one leaves them as they were |
| Flare.Formly.Open | formly.php:145-166 | the form tag gets the current URI when the action is empty, and the attributes settled by `OpenAttrs`; the token follows exactly when `auto_token` is on |
| Flare.Formly.OpenForFiles | formly.php:168-172 | the same as `Open`, with `enctype=multipart/form-data` forced |
| Flare.Formly.Hidden | formly.php:182-186 | a hidden input with the resolved value and the caller's attributes, with no id and no wrapper |
| Flare.Formly.Text | formly.php:196-202 | the text input gets the resolved value and the id-completed attributes, inside the wrapper |
| Flare.Formly.Textarea | formly.php:212-222 | the textarea gets the resolved value and `TextareaAttrs`, inside the wrapper |
| Flare.Formly.Password | formly.php:232-237 | the password input gets no value, only the id-completed attributes, inside the wrapper |
| Flare.Formly.Select | formly.php:249-255 | the selected option is the resolved value; id-completed attributes; inside the wrapper |
| Flare.Formly.Checkbox | formly.php:267-273 | the checked state is the resolved value; id-completed attributes; inside the wrapper |
| Flare.Formly.File | formly.php:282-287 | the file input gets the id-completed attributes, inside the wrapper |
| Flare.Formly.BuildWrapper | formly.php:289-311 | the markup built by appending, piece by piece, is the wrapper layout described by the wrapper lemmas below |
| Flare.Formly.Actions | formly.php:397-404 | a `form-actions` div around the single button or around the buttons concatenated in order |
| Flare.Formly.Submit | formly.php:413-430 | the button gets the attributes of `SubmitAttrs` |
| Flare.Formly.SubmitVariant | formly.php:439-514 | each `submit_*` shortcut is `submit` with its variant name (`btn` for the default) |
| Flare.Formly.Reset | formly.php:523-528 | the button gets the attributes of `ResetAttrs` |
| FormlyProperties.CalculateValueIsFirstMatch | formly.php:349-374 | value resolution is "first match wins" over old input (taken even when empty), then the explicit value, then the form default, then `''` |
| FormlyProperties.OldInputWins | formly.php:357-360 | with old input present, neither the explicit value nor the form defaults affect the result |
| FormlyProperties.EmptyOldInputStillWins | formly.php:357-360 | a flashed `''` beats a non-empty explicit value and a non-empty default |
| FormlyProperties.ExplicitBeatsDefault | formly.php:363-372 | without old input, a non-empty explicit value is returned whatever the defaults are |
| FormlyProperties.SetAttributesIdempotent | formly.php:381-389 | applying set_attributes twice is the same as applying it once |
| FormlyProperties.IsRequiredIsSuffixTest | formly.php:327 | the required test holds exactly when the marker is non-empty and ends the label |
| FormlyProperties.TrailingMarkerStripped | formly.php:327-331 | when the marker occurs only at the end of the label, exactly that marker is removed and the text is decorated |
| FormlyProperties.RequiredLabelExample | formly.php:321-335 | with the default options, `Name.req` gives the text `Name *` and the class `control-label label-required` |
| FormlyProperties.LeadingMarkerAlsoRemoved | formly.php:329 | a label that also starts with the marker loses that one too, not only the trailing one |
| FormlyProperties.PlainLabelUnchanged | formly.php:326-332 | a non-empty label that is not required (no marker at its end, or a marker empty in PHP's sense) keeps its text and gets the class `control-label` |
| FormlyProperties.WrapperOpening | formly.php:291-298 | the wrapper starts with the control-group div, whose class is `GroupClass` of the field's first error |
| FormlyProperties.WrapperFieldVerbatim | formly.php:298-301 | the field markup appears unchanged right after the opening div, the label and the controls div |
| FormlyProperties.WrapperEndsWithError | formly.php:303-309 | with inline errors on and an error present, the wrapper ends with the `help-inline` span, then two closing divs and a newline |
| FormlyProperties.WrapperEndsWithField | formly.php:301-309 | otherwise the field is followed directly by two closing divs and a newline |
| FormlyProperties.WrapperWithoutError | formly.php:289-311 | a field without errors has a plain `control-group` div and no error span |
| FormlyProperties.OpenAttrsIdempotent | formly.php:150-158 | when `form_class` contains `form-`, applying open's class rule twice is the same as applying it once |
| FormlyProperties.OpenClassExamples | formly.php:150-158 | with `form-horizontal`: no class gives `form-horizontal`, `myform` gives `myform form-horizontal`, and `form-inline` is kept |
| FormlyProperties.OpenForFilesKeepsEnctype | formly.php:168-172 | the forced `enctype` survives open's class rule |
| FormlyProperties.SubmitAttrsIdempotent | formly.php:420-427 | the submit merge is idempotent: the button class is never added twice |
| FormlyProperties.SubmitPrimaryExample | formly.php:451-454 | `submit_primary` on no attributes gives exactly `type=submit` and class `btn btn-primary` |
| FormlyProperties.VariantButtonClass | formly.php:416-419 | the default shortcut uses class `btn`; every other shortcut uses `btn btn-<variant>` |
| FormlyProperties.ResetAppendsEachTime | formly.php:525-526 | unlike submit, reset appends `" btn"` on every application, and a missing class becomes `" btn"` |
| FormlyProperties.ActionsInOrder | formly.php:399-401 | the markup of concatenated button lists is the concatenation of their markups; a one-element array is that button |
| FormlyProperties.ApplySettingsAppend | formly.php:111-114 | applying two lists of settings one after the other is the same as applying their concatenation |
| FormlyProperties.ApplySettingEffect | formly.php:113 | a setting assigns its own option key and leaves every other option as it was |
| FormlyProperties.ApplySettingsUntouched | formly.php:111-114 | an option that no setting names keeps its value |
| FormlyProperties.LastSettingWins | formly.php:111-114 | the last setting for a key is the value that stays |

## Left out

- The Laravel facades `Form::*`, `Input::old`, `Session::get('errors')`, `URI::current` and `Form::token` are opaque parameters. Their markup and HTML escaping are not modelled.
- `close`: a one-line delegation to `Form::close()`, with no logic of its own.
- `make`: a static factory that only calls the constructor.
- `set_options` with arbitrary keys: PHP assigns any key as a new property. The model accepts only the ten option fields, as the `Setting` datatype. Setting `defaults` through `set_options` is not modelled either, because it would store an array where `calculate_value` expects an object.
- `set_defaults` PHP casts: `count('')` on a non-array and the `(object)` cast. The defaults are modelled as a map, and "non-empty" as a non-empty map.
- Attribute values are strings. The textarea `rows` is the string `"4"` where PHP stores the integer `4`. `isset` is modelled as key presence, because null attribute values are not modelled.
- Old input and defaults hold scalars (null, bool, int, string). Array values, such as a multiple select, and floats in `empty()` are not modelled. The select options are passed through as opaque pairs.
- Flare.Label: compares with plain string equality. PHP's loose `==` in `substr(...) == $this->required_label` would also treat two different numeric strings as equal. This matters only for a numeric marker.
- Php.Strpos: returns a character index, not PHP's byte offset, so for a haystack with multi-byte characters before the match the index differs (`é-form-` gives 2 where PHP gives 3); the found/not-found answer is the same, and the helper only compares the result with `false` (formly.php:155, 424). It also gives 0 for an empty needle, as in PHP 8; earlier PHP returns false with a warning. The helper never passes an empty needle (`form-`, `btn`, `btn btn-...`).
- The undefined-index notice that `reset` raises when `class` is missing is not modelled. The missing class reads as `''`.
- `PHP_EOL` is fixed to `"\n"`.
- The unused `$for_files` parameter of `open`, and the extra third argument that `build_wrapper` passes to `build_label`, have no effect and are not modelled.
- The note on checkboxes not being redisplayed after a failed validation is a property of HTML form submission, not of this code.
- Rendering the same field twice with the same inputs gives the same markup. This follows from each builder's `ensures`, which equates its result with a function of its inputs. There is no separate lemma for it.
- Attribute order: PHP attribute arrays are ordered, and `Form::*` prints attributes in array order. The helper appends keys at the end (`id` at formly.php:387, `rows` at 218, `type` at 415 and 525, `class` at 153 and 422), so `submit('S', array('class' => 'x'))` passes `class, type` while `submit('S')` passes `type, class`. `Attrs` is an unordered map, so the model does not capture that order or the markup difference it makes.
- PHP default arguments are not modelled: every Dafny parameter must be given. The PHP defaults are `$action = null`, `$method = 'POST'`, `$attributes = array()`, `$https = null`, `$label = ''`, `$value = null`, `$selected = null`, `$options = array()`, checkbox `$value = 1` and `$checked = false`, and submit `$btn_class = 'btn'`. A call that omits an argument corresponds to a model call passing that default explicitly, except `$action = null`: `Formly.Open` and `Formly.OpenForFiles` take the action as a string, so null is passed as `""`, which the `?:` at formly.php:148 treats the same way (both fall back to the current URI).
- PHP strings are byte strings (`strlen` at formly.php:327 counts bytes); the model's strings are sequences of characters. For valid UTF-8 the suffix test and `str_replace` give the same answers on both, and `strpos` gives the same found/not-found answer, though its index is a character index rather than PHP's byte offset (the helper only compares it with `false`); but byte strings that are not valid UTF-8 cannot be represented.
- `set_options` and `set_defaults` return `$this` so that calls can be chained (formly.php:116, 132). `Formly.SetOptions` and `Formly.SetDefaults` return nothing; a chain of calls is a sequence of method calls on the same object.
