/** Properties of the Formly model: the value priority, the attribute rules,
    label and wrapper composition, the class merges and the option setters. */
module FormlyProperties {
  import opened Php
  import opened Flare

  // ------------------------------------------------------- value resolution

  /** A place a field's value can come from; a `strong` source is taken even when empty. */
  datatype Source = Source(value: Value, strong: bool)

  /** "First match wins" over an ordered list of sources, "" when none matches. */
  function FirstMatch(sources: seq<Source>): Value {
    if sources == [] then Str("")
    else if sources[0].strong || !IsEmpty(sources[0].value) then sources[0].value
    else FirstMatch(sources[1..])
  }

  /** The sources of calculate_value in priority order: flashed old input (strong),
      the explicit value, the form default. */
  function ValueSources(oldInput: map<string, Value>, defaults: map<string, Value>, name: string, value: Value): seq<Source> {
    (if HasOldInput(oldInput, name) then [Source(oldInput[name], true)] else [])
    + [Source(value, false)]
    + (if name in defaults then [Source(defaults[name], false)] else [])
  }

  /** calculate_value is the first-match rule over its three sources. */
  lemma {:induction false} CalculateValueIsFirstMatch(oldInput: map<string, Value>, defaults: map<string, Value>, name: string, value: Value)
    ensures CalculateValue(oldInput, defaults, name, value) == FirstMatch(ValueSources(oldInput, defaults, name, value))
  {
    var s := ValueSources(oldInput, defaults, name, value);
    var tail := [Source(value, false)] + (if name in defaults then [Source(defaults[name], false)] else []);
    var last: seq<Source> := if name in defaults then [Source(defaults[name], false)] else [];
    assert tail[1..] == last;
    if last != [] {
      assert last[1..] == [];
    }
    assert FirstMatch(last) == (if name in defaults && !IsEmpty(defaults[name]) then defaults[name] else Str(""));
    assert FirstMatch(tail) == (if !IsEmpty(value) then value else FirstMatch(last));
    if !HasOldInput(oldInput, name) {
      assert s == tail;
    } else {
      assert s[0] == Source(oldInput[name], true);
    }
  }

  /** Old input decides alone: neither the explicit value nor the form defaults matter. */
  lemma OldInputWins(oldInput: map<string, Value>, d1: map<string, Value>, d2: map<string, Value>,
                     name: string, v1: Value, v2: Value)
    requires HasOldInput(oldInput, name)
    ensures CalculateValue(oldInput, d1, name, v1) == CalculateValue(oldInput, d2, name, v2) == oldInput[name]
  {
  }

  /** A flashed empty string still wins over a non-empty explicit value and default. */
  lemma EmptyOldInputStillWins(name: string)
    ensures CalculateValue(map[name := Str("")], map[name := Str("dflt")], name, Str("given")) == Str("")
  {
  }

  /** Without old input, a non-empty explicit value beats any form default. */
  lemma ExplicitBeatsDefault(oldInput: map<string, Value>, d1: map<string, Value>, d2: map<string, Value>,
                             name: string, value: Value)
    requires !HasOldInput(oldInput, name) && !IsEmpty(value)
    ensures CalculateValue(oldInput, d1, name, value) == CalculateValue(oldInput, d2, name, value) == value
  {
  }

  // ------------------------------------------------------------ attributes

  /** Applying set_attributes twice is applying it once. */
  lemma SetAttributesIdempotent(cfg: Config, name: string, attrs: Attrs)
    ensures SetAttributes(cfg, name, SetAttributes(cfg, name, attrs)) == SetAttributes(cfg, name, attrs)
  {
  }

  // ----------------------------------------------------------------- labels

  /** The required test is a plain suffix test on a non-empty marker. */
  lemma IsRequiredIsSuffixTest(cfg: Config, labelText: string)
    ensures IsRequired(cfg, labelText) <==> !EmptyStr(cfg.requiredLabel) && EndsWith(labelText, cfg.requiredLabel)
  {
    if !EmptyStr(cfg.requiredLabel) {
      SubstrFromEndIsSuffixTest(labelText, cfg.requiredLabel);
    }
  }

  /** When the marker appears only at the end of the label, exactly that trailing
      marker is stripped and the text is decorated. */
  lemma TrailingMarkerStripped(cfg: Config, p: string)
    requires !EmptyStr(cfg.requiredLabel)
    requires forall i :: 0 <= i < |p| ==> !OccursAt(p + cfg.requiredLabel, cfg.requiredLabel, i)
    ensures Label(cfg, p + cfg.requiredLabel)
         == Some(LabelParts(cfg.requiredPrefix + p + cfg.requiredSuffix, "control-label " + cfg.requiredClass))
  {
    var m := cfg.requiredLabel;
    assert (p + m)[|p + m| - |m|..] == m;
    IsRequiredIsSuffixTest(cfg, p + m);
    StrRemoveTrailing(p, m);
  }

  /** The label example of the default configuration: "Name.req" becomes "Name *"
      with the required class. */
  lemma RequiredLabelExample()
    ensures Label(DefaultConfig(), "Name.req") == Some(LabelParts("Name *", "control-label label-required"))
  {
    var m := ".req";
    var s := "Name" + m;
    forall i | 0 <= i < 4 ensures !OccursAt(s, m, i) {
      assert s[i..i + 4][0] == s[i] != '.';
    }
    TrailingMarkerStripped(DefaultConfig(), "Name");
    assert s == "Name.req";
    assert "" + "Name" + " *" == "Name *";
    assert "control-label " + "label-required" == "control-label label-required";
  }

  /** str_replace strips every occurrence of the marker, not only the trailing one:
      a label that also starts with the marker loses both. */
  lemma LeadingMarkerAlsoRemoved(cfg: Config, p: string)
    requires !EmptyStr(cfg.requiredLabel)
    requires forall i :: 0 <= i < |p| ==> !OccursAt(p + cfg.requiredLabel, cfg.requiredLabel, i)
    ensures Label(cfg, cfg.requiredLabel + p + cfg.requiredLabel)
         == Some(LabelParts(cfg.requiredPrefix + p + cfg.requiredSuffix, "control-label " + cfg.requiredClass))
  {
    var m := cfg.requiredLabel;
    var s := m + p + m;
    assert s == m + (p + m);
    assert s[|s| - |m|..] == m;
    IsRequiredIsSuffixTest(cfg, s);
    StrRemoveLeading(m, p + m);
    StrRemoveTrailing(p, m);
  }

  /** A label that is not required (no marker at its end, or an empty marker) is
      shown as given. */
  lemma PlainLabelUnchanged(cfg: Config, labelText: string)
    requires !EmptyStr(labelText) && !IsRequired(cfg, labelText)
    ensures Label(cfg, labelText) == Some(LabelParts(labelText, "control-label"))
  {
  }

  // ---------------------------------------------------------------- wrapper

  /** The wrapper opens with the control-group div of the field's state (GroupClass:
      the error class exactly when it and the field's first error are non-empty). */
  lemma WrapperOpening(cfg: Config, tags: Tags, errors: Errors, field: string, name: string, labelText: string)
    ensures var w := WrapperHtml(cfg, tags, errors, field, name, labelText);
            var g := "<div class=\"" + GroupClass(cfg, FirstError(errors, name)) + "\">";
            |g| <= |w| && w[..|g|] == g
  {
    var e := FirstError(errors, name);
    var g := GroupOpen(cfg, e);
    var rest := BuildLabel(cfg, tags, name, labelText) + ControlsOpen + field + InlineError(cfg, e) + WrapperClose;
    assert WrapperHtml(cfg, tags, errors, field, name, labelText) == g + rest;
    Affixes(g, rest);
  }

  /** The field markup appears verbatim right after the label and the controls div. */
  lemma WrapperFieldVerbatim(cfg: Config, tags: Tags, errors: Errors, field: string, name: string, labelText: string)
    ensures OccursAt(WrapperHtml(cfg, tags, errors, field, name, labelText), field,
                     |GroupOpen(cfg, FirstError(errors, name))| + |BuildLabel(cfg, tags, name, labelText)| + |ControlsOpen|)
  {
    var e := FirstError(errors, name);
    var head := GroupOpen(cfg, e) + BuildLabel(cfg, tags, name, labelText) + ControlsOpen;
    var tail := InlineError(cfg, e) + WrapperClose;
    assert WrapperHtml(cfg, tags, errors, field, name, labelText) == head + field + tail;
    assert (head + field + tail)[|head|..|head| + |field|] == field;
  }

  /** With inline errors shown, the wrapper ends with the error span and the two
      closing divs. */
  lemma WrapperEndsWithError(cfg: Config, tags: Tags, errors: Errors, field: string, name: string, labelText: string)
    requires cfg.displayInlineErrors && !EmptyStr(FirstError(errors, name))
    ensures EndsWith(WrapperHtml(cfg, tags, errors, field, name, labelText),
                     "<span class=\"help-inline\">" + FirstError(errors, name) + "</span>" + "</div></div>\n")
  {
    var e := FirstError(errors, name);
    var head := GroupOpen(cfg, e) + BuildLabel(cfg, tags, name, labelText) + ControlsOpen;
    var close := "</div></div>\n";
    assert WrapperClose == close;
    var ending := InlineError(cfg, e) + close;
    assert WrapperHtml(cfg, tags, errors, field, name, labelText) == (head + field) + ending;
    Affixes(head + field, ending);
  }

  /** Otherwise the field is followed directly by the two closing divs. */
  lemma WrapperEndsWithField(cfg: Config, tags: Tags, errors: Errors, field: string, name: string, labelText: string)
    requires !cfg.displayInlineErrors || EmptyStr(FirstError(errors, name))
    ensures EndsWith(WrapperHtml(cfg, tags, errors, field, name, labelText), field + "</div></div>\n")
  {
    var e := FirstError(errors, name);
    var head := GroupOpen(cfg, e) + BuildLabel(cfg, tags, name, labelText) + ControlsOpen;
    var close := "</div></div>\n";
    assert WrapperClose == close;
    assert WrapperHtml(cfg, tags, errors, field, name, labelText) == head + (field + close);
    Affixes(head, field + close);
  }

  /** With no error for the field there is neither error class nor error span. */
  lemma WrapperWithoutError(cfg: Config, tags: Tags, errors: Errors, field: string, name: string, labelText: string)
    requires name !in errors
    ensures WrapperHtml(cfg, tags, errors, field, name, labelText)
         == "<div class=\"control-group\">" + BuildLabel(cfg, tags, name, labelText)
            + "<div class=\"controls\">\n" + field + "</div></div>\n"
  {
    var e := FirstError(errors, name);
    assert e == "" && InlineError(cfg, e) == "";
    assert GroupOpen(cfg, e) == "<div class=\"control-group\">";
    assert ControlsOpen == "<div class=\"controls\">\n";
    assert WrapperClose == "</div></div>\n";
  }

  // ------------------------------------------------------------ form envelope

  /** When the configured form class itself names a form style, open's class rule
      is idempotent. */
  lemma {:induction false} OpenAttrsIdempotent(formClass: string, attrs: Attrs)
    requires Contains(formClass, "form-")
    ensures OpenAttrs(formClass, OpenAttrs(formClass, attrs)) == OpenAttrs(formClass, attrs)
  {
    var once := OpenAttrs(formClass, attrs);
    var c := once["class"];
    assert !EmptyStr(formClass) by {
      var i :| OccursAt(formClass, "form-", i);
    }
    if EmptyStr(Attr(attrs, "class")) {
      assert c == formClass;
    } else if !Contains(attrs["class"], "form-") {
      ContainsSuffix(attrs["class"] + " ", formClass);
      assert c == (attrs["class"] + " ") + formClass;
      var i :| OccursAt(formClass, "form-", i);
      var j := |attrs["class"] + " "| + i;
      assert c[j..j + 5] == formClass[i..i + 5];
      assert OccursAt(c, "form-", j);
    }
    assert !EmptyStr(c) && Contains(c, "form-");
    assert OpenAttrs(formClass, once) == once;
  }

  /** The three class cases with the default form class "form-horizontal". */
  lemma OpenClassExamples()
    ensures OpenAttrs("form-horizontal", map[])["class"] == "form-horizontal"
    ensures OpenAttrs("form-horizontal", map["class" := "myform"])["class"] == "myform form-horizontal"
    ensures OpenAttrs("form-horizontal", map["class" := "form-inline"])["class"] == "form-inline"
  {
    var m := "myform";
    forall i ensures !OccursAt(m, "form-", i) {
      if 0 <= i && i + 5 <= |m| {
        assert m[i..i + 5][0] == m[i] != 'f';
      }
    }
    assert "myform" + " " + "form-horizontal" == "myform form-horizontal";
    var f := "form-inline";
    assert OccursAt(f, "form-", 0);
  }

  /** open_for_files' enctype survives open's class rule. */
  lemma OpenForFilesKeepsEnctype(formClass: string, attrs: Attrs)
    ensures OpenAttrs(formClass, attrs["enctype" := "multipart/form-data"])["enctype"] == "multipart/form-data"
  {
  }

  // ---------------------------------------------------------------- buttons

  /** The submit merge is idempotent: the button class is never added twice. */
  lemma SubmitAttrsIdempotent(attrs: Attrs, btnClass: string)
    ensures SubmitAttrs(SubmitAttrs(attrs, btnClass), btnClass) == SubmitAttrs(attrs, btnClass)
  {
    var once := SubmitAttrs(attrs, btnClass);
    var twice := SubmitAttrs(once, btnClass);
    assert twice.Keys == once.Keys;
  }

  /** submit("Save", [], "primary") carries type=submit and class "btn btn-primary". */
  lemma SubmitPrimaryExample()
    ensures SubmitAttrs(map[], VariantName(Primary)) == map["type" := "submit", "class" := "btn btn-primary"]
  {
    assert ButtonClass(VariantName(Primary)) == "btn btn-" + "primary" == "btn btn-primary";
  }

  /** Each shortcut's button class: plain "btn" for the default, "btn btn-X" otherwise. */
  lemma VariantButtonClass(v: Variant)
    ensures ButtonClass(VariantName(v)) == if v == Default then "btn" else "btn btn-" + VariantName(v)
  {
  }

  /** Unlike submit, reset appends " btn" every time it is applied, and a missing
      class becomes " btn". */
  lemma ResetAppendsEachTime(attrs: Attrs)
    ensures ResetAttrs(ResetAttrs(attrs))["class"] == Attr(attrs, "class") + " btn btn"
    ensures "class" !in attrs ==> ResetAttrs(attrs)["class"] == " btn"
  {
  }

  /** actions keeps the buttons in order: the markup of a concatenation is the
      concatenation of the markups, and one button in an array is that button. */
  lemma ActionsInOrder(a: seq<string>, b: seq<string>, h: string)
    ensures ButtonsHtml(Many(a + b)) == ButtonsHtml(Many(a)) + ButtonsHtml(Many(b))
    ensures ButtonsHtml(Many([h])) == ButtonsHtml(One(h))
  {
    ImplodeAppend(a, b);
    assert [h][0] == h && [h][1..] == [];
    assert Implode([h]) == h + Implode([]);
    assert h + "" == h;
  }

  // ---------------------------------------------------------------- options

  /** Applying two lists of settings is applying their concatenation. */
  lemma {:induction false} ApplySettingsAppend(c: Config, a: seq<Setting>, b: seq<Setting>)
    ensures ApplySettings(c, a + b) == ApplySettings(ApplySettings(c, a), b)
    decreases |b|
  {
    if b == [] {
      assert a + b == a;
    } else {
      assert (a + b)[..|a + b| - 1] == a + b[..|b| - 1];
      ApplySettingsAppend(c, a, b[..|b| - 1]);
    }
  }

  /** A setting assigns its own option and nothing else. */
  lemma ApplySettingEffect(c: Config, s: Setting, key: string)
    ensures Read(ApplySetting(c, s), Key(s)) == Some(s)
    ensures key != Key(s) ==> Read(ApplySetting(c, s), key) == Read(c, key)
  {
  }

  /** An option no setting names keeps its value. */
  lemma {:induction false} ApplySettingsUntouched(c: Config, settings: seq<Setting>, key: string)
    requires forall i :: 0 <= i < |settings| ==> Key(settings[i]) != key
    ensures Read(ApplySettings(c, settings), key) == Read(c, key)
    decreases |settings|
  {
    if settings != [] {
      var init := settings[..|settings| - 1];
      ApplySettingsUntouched(c, init, key);
      ApplySettingEffect(ApplySettings(c, init), settings[|settings| - 1], key);
    }
  }

  /** The last setting for a key is the one that sticks. */
  lemma LastSettingWins(c: Config, settings: seq<Setting>, s: Setting, later: seq<Setting>)
    requires forall i :: 0 <= i < |later| ==> Key(later[i]) != Key(s)
    ensures Read(ApplySettings(c, settings + [s] + later), Key(s)) == Some(s)
  {
    ApplySettingsAppend(c, settings + [s], later);
    ApplySettingsUntouched(ApplySettings(c, settings + [s]), later, Key(s));
    assert (settings + [s])[..|settings + [s]| - 1] == settings;
    ApplySettingEffect(ApplySettings(c, settings), s, Key(s));
  }
}
