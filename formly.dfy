/** Flare\Formly: Bootstrap-styled form markup on top of an external tag builder.
    The facades the PHP class calls (Form::*, Input::old, the flashed `errors`,
    URI::current, Form::token) are passed in as a `Request` and a `Tags` record. */
module Flare {
  import opened Php

  /** An HTML attribute array: attribute name to value. */
  type Attrs = map<string, string>

  /** The flashed validation messages: field name to its messages, in order. */
  type Errors = map<string, seq<string>>

  /** The rendering options of a Formly instance (its public fields other than `defaults`). */
  datatype Config = Config(
    formClass: string,
    autoToken: bool,
    nameAsId: bool,
    idPrefix: string,
    requiredLabel: string,
    requiredPrefix: string,
    requiredSuffix: string,
    requiredClass: string,
    controlGroupError: string,
    displayInlineErrors: bool)

  /** The field initialisers of the PHP class. */
  function DefaultConfig(): Config {
    Config("form-horizontal", true, true, "field_", ".req", "", " *", "label-required", "error", false)
  }

  /** One `key => value` pair given to `set_options`, one constructor per option field. */
  datatype Setting =
    | FormClass(s: string)
    | AutoToken(b: bool)
    | NameAsId(b: bool)
    | IdPrefix(s: string)
    | RequiredLabel(s: string)
    | RequiredPrefix(s: string)
    | RequiredSuffix(s: string)
    | RequiredClass(s: string)
    | ControlGroupError(s: string)
    | DisplayInlineErrors(b: bool)

  /** `$this->$key = $value` for one setting. */
  function ApplySetting(c: Config, s: Setting): Config {
    match s
    case FormClass(v) => c.(formClass := v)
    case AutoToken(v) => c.(autoToken := v)
    case NameAsId(v) => c.(nameAsId := v)
    case IdPrefix(v) => c.(idPrefix := v)
    case RequiredLabel(v) => c.(requiredLabel := v)
    case RequiredPrefix(v) => c.(requiredPrefix := v)
    case RequiredSuffix(v) => c.(requiredSuffix := v)
    case RequiredClass(v) => c.(requiredClass := v)
    case ControlGroupError(v) => c.(controlGroupError := v)
    case DisplayInlineErrors(v) => c.(displayInlineErrors := v)
  }

  /** The settings applied one after the other, in order. */
  function ApplySettings(c: Config, settings: seq<Setting>): Config
    decreases |settings|
  {
    if settings == [] then c
    else ApplySetting(ApplySettings(c, settings[..|settings| - 1]), settings[|settings| - 1])
  }

  /** The option key a setting assigns. */
  function Key(s: Setting): string {
    match s
    case FormClass(_) => "form_class"
    case AutoToken(_) => "auto_token"
    case NameAsId(_) => "name_as_id"
    case IdPrefix(_) => "id_prefix"
    case RequiredLabel(_) => "required_label"
    case RequiredPrefix(_) => "required_prefix"
    case RequiredSuffix(_) => "required_suffix"
    case RequiredClass(_) => "required_class"
    case ControlGroupError(_) => "control_group_error"
    case DisplayInlineErrors(_) => "display_inline_errors"
  }

  /** `$this->$key`: the current value of an option, as the setting that would assign it. */
  function Read(c: Config, key: string): Option<Setting> {
    if key == "form_class" then Some(FormClass(c.formClass))
    else if key == "auto_token" then Some(AutoToken(c.autoToken))
    else if key == "name_as_id" then Some(NameAsId(c.nameAsId))
    else if key == "id_prefix" then Some(IdPrefix(c.idPrefix))
    else if key == "required_label" then Some(RequiredLabel(c.requiredLabel))
    else if key == "required_prefix" then Some(RequiredPrefix(c.requiredPrefix))
    else if key == "required_suffix" then Some(RequiredSuffix(c.requiredSuffix))
    else if key == "required_class" then Some(RequiredClass(c.requiredClass))
    else if key == "control_group_error" then Some(ControlGroupError(c.controlGroupError))
    else if key == "display_inline_errors" then Some(DisplayInlineErrors(c.displayInlineErrors))
    else None
  }

  /** The per-request state the PHP code reads through facades. */
  datatype Request = Request(
    oldInput: map<string, Value>,   // Input::old: the flashed previous submission
    errors: Errors,                 // Session::get('errors')->messages
    currentUri: string,             // URI::current()
    token: string)                  // Form::token(): the CSRF hidden input

  /** The external tag builders (Laravel's Form class), left uninterpreted. */
  datatype Tags = Tags(
    open: (string, string, Attrs, Option<bool>) -> string,
    input: (string, string, Value, Attrs) -> string,
    text: (string, Value, Attrs) -> string,
    textarea: (string, Value, Attrs) -> string,
    password: (string, Attrs) -> string,
    select: (string, seq<(string, string)>, Value, Attrs) -> string,
    checkbox: (string, Value, Value, Attrs) -> string,
    file: (string, Attrs) -> string,
    button: (string, Attrs) -> string,
    labelTag: (string, string, Attrs) -> string)

  /** PHP_EOL on the platforms the helper targets. */
  const Eol: string := "\n"

  /** `$attributes[$k]` used as a string: a missing key reads as null, that is "". */
  function Attr(a: Attrs, k: string): string {
    if k in a then a[k] else ""
  }

  // ---------------------------------------------------------------- values

  /** `Input::old($name) !== null`. */
  predicate HasOldInput(oldInput: map<string, Value>, name: string) {
    name in oldInput && !oldInput[name].Null?
  }

  /** `$this->defaults->$name`, null when the form has no default for the field. */
  function DefaultFor(defaults: map<string, Value>, name: string): Value {
    if name in defaults then defaults[name] else Null
  }

  /** calculate_value: the value a field is rendered with. Flashed old input wins,
      even when empty; then a non-empty explicit value; then a non-empty form
      default; otherwise the empty string. */
  function CalculateValue(oldInput: map<string, Value>, defaults: map<string, Value>, name: string, value: Value): (r: Value)
    ensures HasOldInput(oldInput, name) ==> r == oldInput[name]
    ensures !HasOldInput(oldInput, name) && !IsEmpty(value) ==> r == value
    ensures !HasOldInput(oldInput, name) && IsEmpty(value) && !IsEmpty(DefaultFor(defaults, name)) ==> r == defaults[name]
    ensures !HasOldInput(oldInput, name) && IsEmpty(value) && IsEmpty(DefaultFor(defaults, name)) ==> r == Str("")
  {
    if HasOldInput(oldInput, name) then oldInput[name]
    else if !IsEmpty(value) then value
    else if !IsEmpty(DefaultFor(defaults, name)) then defaults[name]
    else Str("")
  }

  // ------------------------------------------------------------ attributes

  /** set_attributes: add `id = id_prefix . name` when enabled and no id is given. */
  function SetAttributes(cfg: Config, name: string, attrs: Attrs): (r: Attrs)
    ensures !cfg.nameAsId || "id" in attrs ==> r == attrs
    ensures cfg.nameAsId && "id" !in attrs ==>
      r.Keys == attrs.Keys + {"id"} && r["id"] == cfg.idPrefix + name
    ensures forall k :: k in attrs ==> k in r && r[k] == attrs[k]
  {
    if !cfg.nameAsId || "id" in attrs then attrs
    else attrs["id" := cfg.idPrefix + name]
  }

  /** The attributes `textarea` hands to the tag builder: those of set_attributes,
      with `rows` defaulting to 4. */
  function TextareaAttrs(cfg: Config, name: string, attrs: Attrs): (r: Attrs)
    ensures "rows" in r
    ensures "rows" in attrs ==> r["rows"] == attrs["rows"]
    ensures "rows" !in attrs ==> r["rows"] == "4"
    ensures forall k :: k in SetAttributes(cfg, name, attrs) ==> k in r
    ensures forall k :: k in r && k != "rows" ==> k in SetAttributes(cfg, name, attrs) && r[k] == SetAttributes(cfg, name, attrs)[k]
  {
    var a := SetAttributes(cfg, name, attrs);
    if "rows" in a then a else a["rows" := "4"]
  }

  /** The attributes `open` hands to the tag builder: a form class is added unless
      the given class already names one (contains "form-"). */
  function OpenAttrs(formClass: string, attrs: Attrs): (r: Attrs)
    ensures r.Keys == attrs.Keys + {"class"}
    ensures forall k :: k in attrs && k != "class" ==> r[k] == attrs[k]
    ensures EmptyStr(Attr(attrs, "class")) ==> r["class"] == formClass
    ensures !EmptyStr(Attr(attrs, "class")) && !Contains(attrs["class"], "form-") ==>
      r["class"] == attrs["class"] + " " + formClass
    ensures !EmptyStr(Attr(attrs, "class")) && Contains(attrs["class"], "form-") ==>
      r["class"] == attrs["class"]
  {
    var c := Attr(attrs, "class");
    if EmptyStr(c) then attrs["class" := formClass]
    else if Strpos(c, "form-").None? then attrs["class" := c + " " + formClass]
    else attrs["class" := c]
  }

  /** `$btn_class` after its normalisation in `submit`. */
  function ButtonClass(btnClass: string): (r: string)
    ensures |r| >= 3 && r[..3] == "btn"
    ensures btnClass == "btn" <==> r == "btn"
  {
    if btnClass != "btn" then "btn btn-" + btnClass else "btn"
  }

  /** The attributes `submit` hands to the tag builder. */
  function SubmitAttrs(attrs: Attrs, btnClass: string): (r: Attrs)
    ensures r.Keys == attrs.Keys + {"type", "class"}
    ensures r["type"] == "submit"
    ensures forall k :: k in attrs && k != "type" && k != "class" ==> r[k] == attrs[k]
    ensures "class" !in attrs ==> r["class"] == ButtonClass(btnClass)
    ensures "class" in attrs && Contains(attrs["class"], ButtonClass(btnClass)) ==>
      r["class"] == attrs["class"]
    ensures "class" in attrs && !Contains(attrs["class"], ButtonClass(btnClass)) ==>
      r["class"] == attrs["class"] + " " + ButtonClass(btnClass)
    ensures Contains(r["class"], ButtonClass(btnClass))
  {
    var b := ButtonClass(btnClass);
    var a := attrs["type" := "submit"];
    if "class" !in a then
      ContainsSuffix("", b);
      assert "" + b == b;
      a["class" := b]
    else if Strpos(a["class"], b).None? then
      ContainsSuffix(a["class"] + " ", b);
      a["class" := a["class"] + " " + b]
    else a
  }

  /** The seven `submit_*` shortcuts. */
  datatype Variant = Default | Primary | Info | Success | Warning | Danger | Inverse

  /** The `$btn_class` argument each shortcut passes to `submit`. */
  function VariantName(v: Variant): string {
    match v
    case Default => "btn"
    case Primary => "primary"
    case Info => "info"
    case Success => "success"
    case Warning => "warning"
    case Danger => "danger"
    case Inverse => "inverse"
  }

  /** The attributes `reset` hands to the tag builder: " btn" appended to the class,
      a missing class reading as "". */
  function ResetAttrs(attrs: Attrs): (r: Attrs)
    ensures r.Keys == attrs.Keys + {"type", "class"}
    ensures r["type"] == "reset"
    ensures r["class"] == Attr(attrs, "class") + " btn"
    ensures forall k :: k in attrs && k != "type" && k != "class" ==> r[k] == attrs[k]
  {
    attrs["type" := "reset"]["class" := Attr(attrs, "class") + " btn"]
  }

  // ------------------------------------------------------- label, wrapper

  /** The text and class of a label tag. */
  datatype LabelParts = LabelParts(text: string, cls: string)

  /** The required-marker test of build_label: `! empty(required_label)` and
      `substr($label, -strlen(required_label)) == required_label`. */
  predicate IsRequired(cfg: Config, labelText: string) {
    !EmptyStr(cfg.requiredLabel) && SubstrFromEnd(labelText, |cfg.requiredLabel|) == cfg.requiredLabel
  }

  /** What build_label passes to Form::label, or None when it emits nothing. */
  function Label(cfg: Config, labelText: string): (r: Option<LabelParts>)
    ensures r.None? <==> EmptyStr(labelText)
    ensures r.Some? && IsRequired(cfg, labelText) ==>
      r.value.text == cfg.requiredPrefix + StrRemove(labelText, cfg.requiredLabel) + cfg.requiredSuffix
      && r.value.cls == "control-label " + cfg.requiredClass
    ensures r.Some? && !IsRequired(cfg, labelText) ==>
      r.value.text == labelText && r.value.cls == "control-label"
  {
    if EmptyStr(labelText) then None
    else if IsRequired(cfg, labelText) then
      Some(LabelParts(cfg.requiredPrefix + StrRemove(labelText, cfg.requiredLabel) + cfg.requiredSuffix,
                      "control-label " + cfg.requiredClass))
    else Some(LabelParts(labelText, "control-label"))
  }

  /** build_label: the label tag, or "" for an empty label. */
  function BuildLabel(cfg: Config, tags: Tags, name: string, labelText: string): (r: string)
    ensures EmptyStr(labelText) ==> r == ""
    ensures !EmptyStr(labelText) ==>
      r == tags.labelTag(name, Label(cfg, labelText).value.text, map["class" := Label(cfg, labelText).value.cls])
  {
    match Label(cfg, labelText)
    case None => ""
    case Some(p) => tags.labelTag(name, p.text, map["class" := p.cls])
  }

  /** The first flashed error message for a field, or "" when there is none. */
  function FirstError(errors: Errors, name: string): (r: string)
    ensures name in errors && |errors[name]| > 0 ==> r == errors[name][0]
    ensures !(name in errors && |errors[name]| > 0) ==> r == ""
  {
    if name in errors && |errors[name]| > 0 then errors[name][0] else ""
  }

  /** The class of the control-group div for a field whose first error is `error`. */
  function GroupClass(cfg: Config, error: string): (r: string)
    ensures !EmptyStr(cfg.controlGroupError) && !EmptyStr(error) ==> r == "control-group " + cfg.controlGroupError
    ensures EmptyStr(cfg.controlGroupError) || EmptyStr(error) ==> r == "control-group"
  {
    if !EmptyStr(cfg.controlGroupError) && !EmptyStr(error) then "control-group " + cfg.controlGroupError
    else "control-group"
  }

  /** Whether the inline error span is emitted. */
  predicate ShowsInlineError(cfg: Config, error: string) {
    cfg.displayInlineErrors && !EmptyStr(error)
  }

  /** The inline error span, or "". */
  function InlineError(cfg: Config, error: string): (r: string)
    ensures r != "" <==> ShowsInlineError(cfg, error)
  {
    if ShowsInlineError(cfg, error) then "<span class=\"help-inline\">" + error + "</span>" else ""
  }

  /** The opening control-group div. */
  function GroupOpen(cfg: Config, error: string): string {
    "<div class=\"" + GroupClass(cfg, error) + "\">"
  }

  const ControlsOpen: string := "<div class=\"controls\">" + Eol
  const WrapperClose: string := "</div>" + "</div>" + Eol

  /** build_wrapper's result: the markup around one rendered field. */
  function WrapperHtml(cfg: Config, tags: Tags, errors: Errors, field: string, name: string, labelText: string): string {
    var error := FirstError(errors, name);
    GroupOpen(cfg, error) + BuildLabel(cfg, tags, name, labelText) + ControlsOpen
    + field + InlineError(cfg, error) + WrapperClose
  }

  /** The argument of `actions`: one button or an array of buttons. */
  datatype Buttons = One(html: string) | Many(list: seq<string>)

  /** `is_array($buttons) ? implode('', $buttons) : $buttons`. */
  function ButtonsHtml(b: Buttons): string {
    match b
    case One(h) => h
    case Many(l) => Implode(l)
  }

  // --------------------------------------------------------------- the class

  /** A Formly instance: its options and form defaults are fields that only the
      constructor, the setters and `Assign` change; every builder reads them. */
  class Formly {
    var defaults: map<string, Value>
    var formClass: string
    var autoToken: bool
    var nameAsId: bool
    var idPrefix: string
    var requiredLabel: string
    var requiredPrefix: string
    var requiredSuffix: string
    var requiredClass: string
    var controlGroupError: string
    var displayInlineErrors: bool

    /** The option fields as one record. */
    function Configuration(): Config
      reads this
    {
      Config(formClass, autoToken, nameAsId, idPrefix, requiredLabel, requiredPrefix,
             requiredSuffix, requiredClass, controlGroupError, displayInlineErrors)
    }

    /** `new Formly($defaults)`: the field initialisers, then set_defaults. */
    constructor (defaults: map<string, Value>)
      ensures Configuration() == DefaultConfig()
      ensures this.defaults == defaults
    {
      this.defaults := map[];
      formClass := "form-horizontal";
      autoToken := true;
      nameAsId := true;
      idPrefix := "field_";
      requiredLabel := ".req";
      requiredPrefix := "";
      requiredSuffix := " *";
      requiredClass := "label-required";
      controlGroupError := "error";
      displayInlineErrors := false;
      new;
      SetDefaults(defaults);
    }

    /** set_options: assigns each given option, in order. */
    method SetOptions(options: seq<Setting>)
      modifies this
      ensures Configuration() == ApplySettings(old(Configuration()), options)
      ensures defaults == old(defaults)
    {
      var i := 0;
      while i < |options|
        invariant 0 <= i <= |options|
        invariant Configuration() == ApplySettings(old(Configuration()), options[..i])
        invariant defaults == old(defaults)
      {
        assert options[..i + 1][..i] == options[..i];
        Assign(options[i]);
        i := i + 1;
      }
      assert options[..|options|] == options;
    }

    /** `$this->$key = $value`: the one field a setting names. */
    method Assign(s: Setting)
      modifies this
      ensures Configuration() == ApplySetting(old(Configuration()), s)
      ensures defaults == old(defaults)
    {
      match s {
        case FormClass(v) => formClass := v;
        case AutoToken(v) => autoToken := v;
        case NameAsId(v) => nameAsId := v;
        case IdPrefix(v) => idPrefix := v;
        case RequiredLabel(v) => requiredLabel := v;
        case RequiredPrefix(v) => requiredPrefix := v;
        case RequiredSuffix(v) => requiredSuffix := v;
        case RequiredClass(v) => requiredClass := v;
        case ControlGroupError(v) => controlGroupError := v;
        case DisplayInlineErrors(v) => displayInlineErrors := v;
      }
    }

    /** set_defaults: replaces the form defaults, but only with a non-empty array. */
    method SetDefaults(d: map<string, Value>)
      modifies this`defaults
      ensures defaults == if |d| > 0 then d else old(defaults)
    {
      if |d| > 0 {
        defaults := d;
      }
    }

    /** open: the form tag with its class settled, followed by the CSRF token when enabled. */
    method Open(action: string, httpMethod: string, attributes: Attrs, https: Option<bool>, req: Request, tags: Tags)
      returns (html: string)
      ensures html == tags.open(if EmptyStr(action) then req.currentUri else action,
                                httpMethod, OpenAttrs(formClass, attributes), https)
                      + (if autoToken then req.token else "")
    {
      var act := if EmptyStr(action) then req.currentUri else action;
      var attrs := attributes;
      if EmptyStr(Attr(attrs, "class")) {
        attrs := attrs["class" := formClass];
      } else if Strpos(attrs["class"], "form-").None? {
        attrs := attrs["class" := attrs["class"] + " " + formClass];
      }
      assert attrs == OpenAttrs(formClass, attributes);
      html := tags.open(act, httpMethod, attrs, https);
      if autoToken {
        html := html + req.token;
      }
    }

    /** open_for_files: open with `enctype` forced to multipart/form-data. */
    method OpenForFiles(action: string, httpMethod: string, attributes: Attrs, https: Option<bool>, req: Request, tags: Tags)
      returns (html: string)
      ensures html == tags.open(if EmptyStr(action) then req.currentUri else action, httpMethod,
                                OpenAttrs(formClass, attributes["enctype" := "multipart/form-data"]), https)
                      + (if autoToken then req.token else "")
    {
      var attrs := attributes["enctype" := "multipart/form-data"];
      html := Open(action, httpMethod, attrs, https, req, tags);
    }

    /** hidden: the resolved value in a bare hidden input (no id, no wrapper). */
    method Hidden(name: string, value: Value, attributes: Attrs, req: Request, tags: Tags) returns (html: string)
      ensures html == tags.input("hidden", name, CalculateValue(req.oldInput, defaults, name, value), attributes)
    {
      var v := CalculateValue(req.oldInput, defaults, name, value);
      html := tags.input("hidden", name, v, attributes);
    }

    /** text: resolved value, id added, wrapped. */
    method Text(name: string, labelText: string, value: Value, attributes: Attrs, req: Request, tags: Tags) returns (html: string)
      ensures html == WrapperHtml(Configuration(), tags, req.errors,
        tags.text(name, CalculateValue(req.oldInput, defaults, name, value), SetAttributes(Configuration(), name, attributes)),
        name, labelText)
    {
      var v := CalculateValue(req.oldInput, defaults, name, value);
      var attrs := SetAttributes(Configuration(), name, attributes);
      var field := tags.text(name, v, attrs);
      html := BuildWrapper(field, name, labelText, req, tags);
    }

    /** textarea: like text, with `rows` defaulting to 4. */
    method Textarea(name: string, labelText: string, value: Value, attributes: Attrs, req: Request, tags: Tags) returns (html: string)
      ensures html == WrapperHtml(Configuration(), tags, req.errors,
        tags.textarea(name, CalculateValue(req.oldInput, defaults, name, value), TextareaAttrs(Configuration(), name, attributes)),
        name, labelText)
    {
      var v := CalculateValue(req.oldInput, defaults, name, value);
      var attrs := SetAttributes(Configuration(), name, attributes);
      if "rows" !in attrs {
        attrs := attrs["rows" := "4"];
      }
      var field := tags.textarea(name, v, attrs);
      html := BuildWrapper(field, name, labelText, req, tags);
    }

    /** password: never repopulated; id added, wrapped. */
    method Password(name: string, labelText: string, attributes: Attrs, req: Request, tags: Tags) returns (html: string)
      ensures html == WrapperHtml(Configuration(), tags, req.errors,
        tags.password(name, SetAttributes(Configuration(), name, attributes)), name, labelText)
    {
      var attrs := SetAttributes(Configuration(), name, attributes);
      var field := tags.password(name, attrs);
      html := BuildWrapper(field, name, labelText, req, tags);
    }

    /** select: the selected option is the resolved value. */
    method Select(name: string, labelText: string, options: seq<(string, string)>, selected: Value, attributes: Attrs,
                  req: Request, tags: Tags) returns (html: string)
      ensures html == WrapperHtml(Configuration(), tags, req.errors,
        tags.select(name, options, CalculateValue(req.oldInput, defaults, name, selected),
                    SetAttributes(Configuration(), name, attributes)),
        name, labelText)
    {
      var sel := CalculateValue(req.oldInput, defaults, name, selected);
      var attrs := SetAttributes(Configuration(), name, attributes);
      var field := tags.select(name, options, sel, attrs);
      html := BuildWrapper(field, name, labelText, req, tags);
    }

    /** checkbox: the checked state is the resolved value. */
    method Checkbox(name: string, labelText: string, value: Value, checked: Value, attributes: Attrs,
                    req: Request, tags: Tags) returns (html: string)
      ensures html == WrapperHtml(Configuration(), tags, req.errors,
        tags.checkbox(name, value, CalculateValue(req.oldInput, defaults, name, checked),
                      SetAttributes(Configuration(), name, attributes)),
        name, labelText)
    {
      var chk := CalculateValue(req.oldInput, defaults, name, checked);
      var attrs := SetAttributes(Configuration(), name, attributes);
      var field := tags.checkbox(name, value, chk, attrs);
      html := BuildWrapper(field, name, labelText, req, tags);
    }

    /** file: id added, wrapped. */
    method File(name: string, labelText: string, attributes: Attrs, req: Request, tags: Tags) returns (html: string)
      ensures html == WrapperHtml(Configuration(), tags, req.errors,
        tags.file(name, SetAttributes(Configuration(), name, attributes)), name, labelText)
    {
      var attrs := SetAttributes(Configuration(), name, attributes);
      var field := tags.file(name, attrs);
      html := BuildWrapper(field, name, labelText, req, tags);
    }

    /** build_wrapper: control-group div, label, controls div, the field, the optional
        inline error, and the two closing divs, appended one after the other. */
    method BuildWrapper(field: string, name: string, labelText: string, req: Request, tags: Tags) returns (out: string)
      ensures out == WrapperHtml(Configuration(), tags, req.errors, field, name, labelText)
    {
      var cfg := Configuration();
      var error := FirstError(req.errors, name);
      var cls := "control-group";
      if !EmptyStr(controlGroupError) && !EmptyStr(error) {
        cls := cls + " " + controlGroupError;
      }
      out := "<div class=\"" + cls + "\">";
      assert out == GroupOpen(cfg, error);
      out := out + BuildLabel(cfg, tags, name, labelText);
      out := out + "<div class=\"controls\">" + Eol;
      assert out == GroupOpen(cfg, error) + BuildLabel(cfg, tags, name, labelText) + ControlsOpen;
      out := out + field;
      ghost var body := out;
      if displayInlineErrors && !EmptyStr(error) {
        out := out + "<span class=\"help-inline\">" + error + "</span>";
      }
      assert out == body + InlineError(cfg, error);
      out := out + "</div>";
      out := out + "</div>" + Eol;
      assert out == body + InlineError(cfg, error) + WrapperClose;
    }

    /** actions: the buttons, in order, inside a form-actions div. */
    method Actions(buttons: Buttons) returns (out: string)
      ensures out == "<div class=\"form-actions\">" + ButtonsHtml(buttons) + "</div>"
    {
      out := "<div class=\"form-actions\">";
      out := out + (if buttons.Many? then Implode(buttons.list) else buttons.html);
      out := out + "</div>";
    }

    /** submit: a submit button whose class carries `btn` or `btn btn-{variant}`. */
    method Submit(value: string, attributes: Attrs, btnClass: string, tags: Tags) returns (html: string)
      ensures html == tags.button(value, SubmitAttrs(attributes, btnClass))
    {
      var attrs := attributes["type" := "submit"];
      var b := btnClass;
      if b != "btn" {
        b := "btn btn-" + b;
      }
      if "class" !in attrs {
        attrs := attrs["class" := b];
      } else if Strpos(attrs["class"], b).None? {
        attrs := attrs["class" := attrs["class"] + " " + b];
      }
      html := tags.button(value, attrs);
    }

    /** submit_default, submit_primary, ..., submit_inverse. */
    method SubmitVariant(value: string, attributes: Attrs, variant: Variant, tags: Tags) returns (html: string)
      ensures html == tags.button(value, SubmitAttrs(attributes, VariantName(variant)))
    {
      html := Submit(value, attributes, VariantName(variant), tags);
    }

    /** reset: a reset button with " btn" appended to its class. */
    method Reset(value: string, attributes: Attrs, tags: Tags) returns (html: string)
      ensures html == tags.button(value, ResetAttrs(attributes))
    {
      var attrs := attributes["type" := "reset"];
      attrs := attrs["class" := Attr(attrs, "class") + " btn"];
      html := tags.button(value, attrs);
    }
  }
}
