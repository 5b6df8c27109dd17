/**
 * The render preparation of the Select2 form element: the pipeline
 * `preRenderSelect` → `preRenderAutocomplete` → `preRenderOverwrites`, as far
 * as tests/src/Unit/Element/Select2Test.php pins it down. The element class
 * itself is not part of this model; the function below is the composition of
 * the three stages for an element without autocomplete, without autocreate
 * and with unlimited cardinality, which is what the tests exercise.
 */
module Select2Element {
  import opened Wrappers
  import opened PhpArray

  /** The element properties the pipeline reads in the tested cases. */
  datatype Element = Element(
    name: string,                // #name
    multiple: bool,              // #multiple
    required: bool,              // #required
    placeholder: Option<string>, // #placeholder, when set
    select2: Entries             // #select2, the user settings
  )

  /** What the language and theme services report. */
  datatype Environment = Environment(direction: string, language: string, theme: string)

  /** The attributes the tests inspect; `config` stands for `data-select2-config` before encoding. */
  datatype Rendered = Rendered(name: string, multiple: Option<string>, config: Entries)

  /** The keys of the client configuration, in their encoded order. */
  const ConfigKeys: seq<string> := [
    "multiple", "placeholder", "allowClear", "dir", "language", "tags",
    "theme", "maximumSelectionLength", "tokenSeparators", "selectOnClose", "width"
  ]

  /** The configuration the element gets before user settings are applied. */
  function DefaultConfig(el: Element, env: Environment): (d: Entries)
    ensures Keys(d) == ConfigKeys
  {
    [
      ("multiple", Bool(el.multiple)),
      ("placeholder", Str(if el.placeholder.Some? then el.placeholder.value else "")),
      ("allowClear", Bool(!el.multiple && !el.required)),
      ("dir", Str(env.direction)),
      ("language", Str(env.language)),
      ("tags", Bool(false)),
      ("theme", Str(env.theme)),
      ("maximumSelectionLength", Int(0)),
      ("tokenSeparators", List([])),
      ("selectOnClose", Bool(false)),
      ("width", Str("100%"))
    ]
  }

  /** The value a configuration key ends up with: the user setting of that key if there is one, else the default. */
  function Setting(user: Entries, k: string, default: Value): Value {
    match Lookup(user, k)
    case Some(v) => v
    case None => default
  }

  /** Each default replaced by the user setting of the same key, if there is one; other user keys are dropped. */
  function Overwrite(defaults: Entries, user: Entries): (r: Entries)
    ensures Keys(r) == Keys(defaults)
    ensures forall i :: 0 <= i < |r| ==> r[i].1 == Setting(user, defaults[i].0, defaults[i].1)
  {
    seq(|defaults|, i requires 0 <= i < |defaults| => (defaults[i].0, Setting(user, defaults[i].0, defaults[i].1)))
  }

  /** The attributes and the client configuration after the three pre-render stages. */
  function PreRender(el: Element, env: Environment): (r: Rendered)
    ensures r.multiple == Some("multiple") <==> el.multiple
    ensures r.name == if el.multiple then el.name + "[]" else el.name
    ensures Keys(r.config) == ConfigKeys
  {
    Rendered(
      if el.multiple then el.name + "[]" else el.name,
      if el.multiple then Some("multiple") else None,
      Overwrite(DefaultConfig(el, env), el.select2))
  }

  /** `ConfigKeys` holds eleven distinct keys. */
  lemma ConfigKeysDistinct()
    ensures |ConfigKeys| == 11
    ensures forall i, j :: 0 <= i < j < |ConfigKeys| ==> ConfigKeys[i] != ConfigKeys[j]
  {
  }

  /** The configuration key at each position. */
  lemma ConfigKeyNames()
    ensures ConfigKeys[0] == "multiple" && ConfigKeys[1] == "placeholder" && ConfigKeys[2] == "allowClear"
    ensures ConfigKeys[3] == "dir" && ConfigKeys[4] == "language" && ConfigKeys[5] == "tags"
    ensures ConfigKeys[6] == "theme" && ConfigKeys[7] == "maximumSelectionLength" && ConfigKeys[8] == "tokenSeparators"
    ensures ConfigKeys[9] == "selectOnClose" && ConfigKeys[10] == "width"
  {
  }

  /** The configuration has exactly the eleven keys, once each, in the fixed order, whatever the input. */
  lemma ConfigShape(el: Element, env: Environment)
    ensures Keys(PreRender(el, env).config) == ConfigKeys
    ensures DistinctKeys(PreRender(el, env).config)
  {
    ConfigKeysDistinct();
    var c := PreRender(el, env).config;
    forall i, j | 0 <= i < j < |c| ensures c[i].0 != c[j].0 {
      assert c[i].0 == Keys(c)[i] && c[j].0 == Keys(c)[j];
    }
  }

  /** The default configuration has no key twice. */
  lemma DefaultConfigDistinct(el: Element, env: Environment)
    ensures DistinctKeys(DefaultConfig(el, env))
  {
    ConfigKeysDistinct();
    var d := DefaultConfig(el, env);
    forall i, j | 0 <= i < j < |d| ensures d[i].0 != d[j].0 {
      assert d[i].0 == Keys(d)[i] && d[j].0 == Keys(d)[j];
    }
  }

  /** The value of the `i`-th configuration key: the user setting when there is one, the default otherwise. */
  lemma {:induction false} ConfigValueAt(el: Element, env: Environment, i: int)
    requires 0 <= i < |ConfigKeys|
    ensures Lookup(PreRender(el, env).config, ConfigKeys[i]) ==
      Some(Setting(el.select2, ConfigKeys[i], DefaultConfig(el, env)[i].1))
  {
    var d := DefaultConfig(el, env);
    var c := PreRender(el, env).config;
    ConfigShape(el, env);
    assert c[i].0 == ConfigKeys[i] by {
      assert Keys(c)[i] == ConfigKeys[i];
    }
    LookupAt(c, i);
  }

  /** The value of configuration key `k`: the user setting when there is one, the default otherwise. */
  lemma {:induction false} ConfigValue(el: Element, env: Environment, k: string)
    requires k in ConfigKeys
    ensures Lookup(PreRender(el, env).config, k) ==
      if k in Keys(el.select2) then Lookup(el.select2, k) else Lookup(DefaultConfig(el, env), k)
  {
    var d := DefaultConfig(el, env);
    var i :| 0 <= i < |ConfigKeys| && ConfigKeys[i] == k;
    ConfigValueAt(el, env, i);
    DefaultConfigDistinct(el, env);
    assert Keys(d)[i] == k;
    LookupAt(d, i);
  }

  /** Without user settings the configuration is the default configuration. */
  lemma NoUserSettings(el: Element, env: Environment)
    requires el.select2 == []
    ensures PreRender(el, env).config == DefaultConfig(el, env)
  {
    var d := DefaultConfig(el, env);
    var c := PreRender(el, env).config;
    assert |c| == |d| by {
      assert |Keys(c)| == |Keys(d)|;
    }
    forall i | 0 <= i < |c| ensures c[i] == d[i] {
      assert Keys(c)[i] == Keys(d)[i];
    }
  }

  /** Without a user `allowClear`, clearing is allowed exactly when the element is neither required nor multiple. */
  lemma AllowClearDefault(el: Element, env: Environment)
    requires "allowClear" !in Keys(el.select2)
    ensures Lookup(PreRender(el, env).config, "allowClear") == Some(Bool(!el.required && !el.multiple))
  {
    ConfigValueAt(el, env, 2);
    ConfigKeyNames();
    assert Lookup(el.select2, "allowClear") == None;
  }

  /** Without a user `multiple`, the configuration's `multiple` is the element's `#multiple`. */
  lemma MultipleDefault(el: Element, env: Environment)
    requires "multiple" !in Keys(el.select2)
    ensures Lookup(PreRender(el, env).config, "multiple") == Some(Bool(el.multiple))
  {
    ConfigKeyNames();
    ConfigValueAt(el, env, 0);
  }

  /** Without a user `placeholder`, it is `#placeholder` when set and the empty string otherwise. */
  lemma PlaceholderDefault(el: Element, env: Environment)
    requires "placeholder" !in Keys(el.select2)
    ensures el.placeholder.None? ==> Lookup(PreRender(el, env).config, "placeholder") == Some(Str(""))
    ensures el.placeholder.Some? ==> Lookup(PreRender(el, env).config, "placeholder") == Some(Str(el.placeholder.value))
  {
    ConfigValueAt(el, env, 1);
    ConfigKeyNames();
    assert Lookup(el.select2, "placeholder") == None;
    assert DefaultConfig(el, env)[1].1 == Str(if el.placeholder.Some? then el.placeholder.value else "");
  }

  /** Without user settings for them, `dir`, `language` and `theme` come from the environment. */
  lemma EnvironmentValues(el: Element, env: Environment)
    requires "dir" !in Keys(el.select2) && "language" !in Keys(el.select2) && "theme" !in Keys(el.select2)
    ensures Lookup(PreRender(el, env).config, "dir") == Some(Str(env.direction))
    ensures Lookup(PreRender(el, env).config, "language") == Some(Str(env.language))
    ensures Lookup(PreRender(el, env).config, "theme") == Some(Str(env.theme))
  {
    ConfigKeyNames();
    ConfigValueAt(el, env, 3);
    ConfigValueAt(el, env, 4);
    ConfigValueAt(el, env, 6);
  }

  /** The remaining defaults for an element without autocreate and with unlimited cardinality. */
  lemma RemainingDefaults(el: Element, env: Environment)
    requires forall k :: k in ["tags", "maximumSelectionLength", "tokenSeparators", "selectOnClose", "width"] ==>
      k !in Keys(el.select2)
    ensures Lookup(PreRender(el, env).config, "tags") == Some(Bool(false))
    ensures Lookup(PreRender(el, env).config, "maximumSelectionLength") == Some(Int(0))
    ensures Lookup(PreRender(el, env).config, "tokenSeparators") == Some(List([]))
    ensures Lookup(PreRender(el, env).config, "selectOnClose") == Some(Bool(false))
    ensures Lookup(PreRender(el, env).config, "width") == Some(Str("100%"))
  {
    ConfigKeyNames();
    ConfigValueAt(el, env, 5);
    ConfigValueAt(el, env, 7);
    ConfigValueAt(el, env, 8);
    ConfigValueAt(el, env, 9);
    ConfigValueAt(el, env, 10);
  }

  /** A user setting for a configuration key always wins over the default. */
  lemma UserSettingWins(el: Element, env: Environment, k: string, v: Value)
    requires k in ConfigKeys && Lookup(el.select2, k) == Some(v)
    ensures Lookup(PreRender(el, env).config, k) == Some(v)
  {
    ConfigValue(el, env, k);
  }

  // The fixtures of the unit test.

  /** The language (rtl, en) and theme (seven) services of the test's container. */
  const TestEnvironment: Environment := Environment("rtl", "en", "seven")

  /** The expected `data-select2-config` record of the test, before encoding. */
  function ExpectedConfig(multiple: bool, placeholder: string, allowClear: bool): Entries {
    [
      ("multiple", Bool(multiple)),
      ("placeholder", Str(placeholder)),
      ("allowClear", Bool(allowClear)),
      ("dir", Str("rtl")),
      ("language", Str("en")),
      ("tags", Bool(false)),
      ("theme", Str("seven")),
      ("maximumSelectionLength", Int(0)),
      ("tokenSeparators", List([])),
      ("selectOnClose", Bool(false)),
      ("width", Str("100%"))
    ]
  }

  /** The test's element `field_foo` with the given flags and user settings. */
  function FieldFoo(multiple: bool, required: bool, settings: Entries): Element {
    Element("field_foo", multiple, required, None, settings)
  }

  /** Data-provider case 1: multiple and required. */
  lemma ProviderMultipleRequired()
    ensures PreRender(FieldFoo(true, true, []), TestEnvironment).multiple == Some("multiple")
    ensures PreRender(FieldFoo(true, true, []), TestEnvironment).name == "field_foo[]"
    ensures PreRender(FieldFoo(true, true, []), TestEnvironment).config == ExpectedConfig(true, "", false)
  {
    NoUserSettings(FieldFoo(true, true, []), TestEnvironment);
  }

  /** Data-provider case 2: single and required. */
  lemma ProviderSingleRequired()
    ensures var r := PreRender(FieldFoo(false, true, []), TestEnvironment);
      r.name == "field_foo" && r.config == ExpectedConfig(false, "", false)
  {
    NoUserSettings(FieldFoo(false, true, []), TestEnvironment);
  }

  /** Data-provider case 3: multiple and optional. */
  lemma ProviderMultipleOptional()
    ensures PreRender(FieldFoo(true, false, []), TestEnvironment).multiple == Some("multiple")
    ensures PreRender(FieldFoo(true, false, []), TestEnvironment).name == "field_foo[]"
    ensures PreRender(FieldFoo(true, false, []), TestEnvironment).config == ExpectedConfig(true, "", false)
  {
    NoUserSettings(FieldFoo(true, false, []), TestEnvironment);
  }

  /** Data-provider case 4: single and optional, the only case where clearing is allowed. */
  lemma ProviderSingleOptional()
    ensures var r := PreRender(FieldFoo(false, false, []), TestEnvironment);
      r.name == "field_foo" && r.config == ExpectedConfig(false, "", true)
  {
    NoUserSettings(FieldFoo(false, false, []), TestEnvironment);
  }

  /** Data-provider case 5: user settings `allowClear => FALSE, multiple => TRUE` override the defaults. */
  lemma ProviderOverwrittenDefaults()
    ensures var r := PreRender(FieldFoo(false, false, [("allowClear", Bool(false)), ("multiple", Bool(true))]), TestEnvironment);
      r.name == "field_foo" && r.config == ExpectedConfig(true, "", false)
  {
    var user := [("allowClear", Bool(false)), ("multiple", Bool(true))];
    var c := PreRender(FieldFoo(false, false, user), TestEnvironment).config;
    var e := ExpectedConfig(true, "", false);
    var d := DefaultConfig(FieldFoo(false, false, user), TestEnvironment);
    ConfigKeysDistinct();
    assert user[0].0 == ConfigKeys[2] && user[1].0 == ConfigKeys[0];
    assert |c| == |e| by {
      assert |Keys(c)| == |ConfigKeys|;
    }
    forall i | 0 <= i < |c| ensures c[i] == e[i] {
      assert Keys(c)[i] == ConfigKeys[i];
      if i != 0 && i != 2 {
        assert Lookup(user, ConfigKeys[i]) == None;
      }
    }
  }

  /** The placeholder test: `#placeholder => 'test-placeholder'` reaches the configuration. */
  lemma PlaceholderPropertyRendering()
    ensures var r := PreRender(Element("field_foo", false, false, Some("test-placeholder"), []), TestEnvironment);
      r.name == "field_foo" && r.config == ExpectedConfig(false, "test-placeholder", true)
  {
    NoUserSettings(Element("field_foo", false, false, Some("test-placeholder"), []), TestEnvironment);
  }
}
