/**
 * The autocomplete matcher of the Select2 entity reference widget
 * (src/EntityAutocompleteMatcher.php): it turns a search string into one page
 * of `{id, text}` matches by asking an entity reference selection handler.
 *
 * The selection plugin manager and the handlers it returns are collaborators
 * whose internals are not modelled: the manager is a function from handler
 * options to a handler or an error, and a handler is a function from
 * (search string, match operator, limit, offset) to the bundle → id → label
 * listing it returns, or an error. `Html::decodeEntities` is the parameter
 * `decodeEntities`.
 */
module AutocompleteMatcher {
  import opened Wrappers
  import opened PhpArray

  /** An entity id as a PHP array key: an integer or a string. */
  datatype EntityId = IntId(n: int) | StrId(s: string)

  /** One autocomplete match, `['id' => $entity_id, 'text' => $label]`. */
  datatype Match = Match(id: EntityId, text: string)

  /** One bundle of a handler's answer: its name and its entity id → raw label entries, in order. */
  type Bundle = (string, seq<(EntityId, string)>)

  /** The failures a call can surface to its caller. */
  datatype Error =
    | PluginNotFound      // the manager cannot resolve the handler for the options
    | AccessDenied        // the current user may not list the referenced entities
    | UnsupportedOperand  // `$page * $match_size` on a value PHP cannot multiply

  /** A selection handler instance, reduced to its `getReferenceableEntities` operation. */
  datatype Handler = Handler(getReferenceableEntities: (string, Value, Value, int) -> Result<seq<Bundle>, Error>)

  /** The selection plugin manager's `getInstance`. */
  type SelectionManager = Entries -> Result<Handler, Error>

  const DefaultOperator: Value := Str("CONTAINS")
  const DefaultSize: Value := Int(10)

  /** `$selection_settings + ['target_type' => …, 'handler' => …]`. */
  function HandlerOptions(targetType: string, selectionHandler: string, settings: Entries): (r: Entries)
    ensures |settings| <= |r| <= |settings| + 2 && r[..|settings|] == settings
    ensures ("target_type", Str(targetType)) in r || "target_type" in Keys(settings)
    ensures ("handler", Str(selectionHandler)) in r || "handler" in Keys(settings)
  {
    Union(settings, [("target_type", Str(targetType)), ("handler", Str(selectionHandler))])
  }

  /**
   * The handler options are the settings followed by the `target_type` entry
   * and then the `handler` entry, each only when the settings lack that key.
   */
  lemma HandlerOptionsClosedForm(targetType: string, selectionHandler: string, settings: Entries)
    ensures HandlerOptions(targetType, selectionHandler, settings) ==
      settings
      + (if "target_type" in Keys(settings) then [] else [("target_type", Str(targetType))])
      + (if "handler" in Keys(settings) then [] else [("handler", Str(selectionHandler))])
  {
    var t, h := ("target_type", Str(targetType)), ("handler", Str(selectionHandler));
    assert [t, h][..1] == [t];
    assert Missing([t], settings) == (if t.0 in Keys(settings) then [] else [t]) by {
      assert [t][..0] == [];
    }
  }

  /** Every key other than `target_type` and `handler` looks up exactly as in the settings. */
  lemma HandlerOptionsKeepSettings(targetType: string, selectionHandler: string, settings: Entries, k: string)
    requires k != "target_type" && k != "handler"
    ensures Lookup(HandlerOptions(targetType, selectionHandler, settings), k) == Lookup(settings, k)
  {
    var extra := [("target_type", Str(targetType)), ("handler", Str(selectionHandler))];
    UnionLookup(settings, extra, k);
    assert Keys(extra) == ["target_type", "handler"];
  }

  /** `target_type` and `handler` are added only when the settings lack them; a setting of the same key wins. */
  lemma HandlerOptionsAdded(targetType: string, selectionHandler: string, settings: Entries)
    ensures Lookup(HandlerOptions(targetType, selectionHandler, settings), "target_type") ==
      if "target_type" in Keys(settings) then Lookup(settings, "target_type") else Some(Str(targetType))
    ensures Lookup(HandlerOptions(targetType, selectionHandler, settings), "handler") ==
      if "handler" in Keys(settings) then Lookup(settings, "handler") else Some(Str(selectionHandler))
  {
    var extra := [("target_type", Str(targetType)), ("handler", Str(selectionHandler))];
    assert Keys(extra) == ["target_type", "handler"];
    UnionLookup(settings, extra, "target_type");
    assert Lookup(extra, "target_type") == Some(Str(targetType));
    UnionLookup(settings, extra, "handler");
    assert Lookup(extra[1..], "handler") == Some(Str(selectionHandler));
  }

  /** With distinct setting keys, the handler options have distinct keys too. */
  lemma HandlerOptionsDistinct(targetType: string, selectionHandler: string, settings: Entries)
    requires DistinctKeys(settings)
    ensures DistinctKeys(HandlerOptions(targetType, selectionHandler, settings))
  {
    UnionDistinct(settings, [("target_type", Str(targetType)), ("handler", Str(selectionHandler))]);
  }

  /** The match operator: the `match_operator` setting when non-empty, otherwise CONTAINS. */
  function MatchOperator(settings: Entries): (op: Value)
    ensures !IsEmpty(op)
    ensures op == DefaultOperator || Lookup(settings, "match_operator") == Some(op)
  {
    OrDefault(settings, "match_operator", DefaultOperator)
  }

  /** The page size: the `match_size` setting when non-empty, otherwise 10. */
  function MatchSize(settings: Entries): (size: Value)
    ensures !IsEmpty(size)
    ensures size == DefaultSize || Lookup(settings, "match_size") == Some(size)
  {
    OrDefault(settings, "match_size", DefaultSize)
  }

  /** A missing or empty `match_operator` gives CONTAINS; a non-empty one is passed through unchanged. */
  lemma MatchOperatorChoice(settings: Entries)
    ensures Lookup(settings, "match_operator") == None || IsEmpty(Lookup(settings, "match_operator").value) ==>
      MatchOperator(settings) == Str("CONTAINS")
    ensures forall v :: Lookup(settings, "match_operator") == Some(v) && !IsEmpty(v) ==> MatchOperator(settings) == v
  {
  }

  /** A missing, null, false, zero, "", "0" or empty-array `match_size` gives 10; a non-empty one is passed through. */
  lemma MatchSizeChoice(settings: Entries)
    ensures Lookup(settings, "match_size") == None || IsEmpty(Lookup(settings, "match_size").value) ==>
      MatchSize(settings) == Int(10)
    ensures forall v :: Lookup(settings, "match_size") == Some(v) && !IsEmpty(v) ==> MatchSize(settings) == v
  {
  }

  predicate IsDigit(c: char) {
    '0' <= c <= '9'
  }

  predicate AllDigits(s: string) {
    forall i :: 0 <= i < |s| ==> IsDigit(s[i])
  }

  /** The number a string of decimal digits denotes. */
  function DigitsValue(s: string): nat
    requires AllDigits(s)
  {
    if s == [] then 0
    else DigitsValue(s[..|s| - 1]) * 10 + (s[|s| - 1] as int - '0' as int)
  }

  /** The integer a plain decimal string (an optional sign, then digits) denotes. */
  function DecimalValue(s: string): Option<int> {
    if s != [] && AllDigits(s) then Some(DigitsValue(s))
    else if |s| > 1 && s[0] == '-' && AllDigits(s[1..]) then Some(0 - DigitsValue(s[1..]) as int)
    else if |s| > 1 && s[0] == '+' && AllDigits(s[1..]) then Some(DigitsValue(s[1..]))
    else None
  }

  /** The decimal digits of a natural number, without leading zeros. */
  function Digits(n: nat): (s: string)
    ensures s != [] && AllDigits(s)
  {
    var d := ['0' + (n % 10) as char];
    if n < 10 then d else Digits(n / 10) + d
  }

  lemma {:induction false} DigitsValueOfDigits(n: nat)
    ensures DigitsValue(Digits(n)) == n
  {
    if n >= 10 {
      DigitsValueOfDigits(n / 10);
      var s := Digits(n);
      assert s[..|s| - 1] == Digits(n / 10);
    }
  }

  /** How PHP writes an integer in decimal. */
  function IntString(i: int): string {
    if i < 0 then "-" + Digits(-i) else Digits(i)
  }

  /** The integer PHP uses for a value that is an operand of `*`, if it accepts it. */
  function ToNumber(v: Value): (r: Option<int>)
    ensures v.Int? ==> r == Some(v.i)
    ensures v.Null? ==> r == Some(0)
    ensures v.Bool? ==> r == Some(if v.b then 1 else 0)
    ensures v.Str? && v.s != [] && AllDigits(v.s) ==> r == Some(DigitsValue(v.s))
    ensures v.List? ==> r.None?
    ensures v.Str? && r.Some? ==> v.s != [] && (IsDigit(v.s[0]) || v.s[0] == '-' || v.s[0] == '+')
  {
    match v
    case Null => Some(0)
    case Bool(b) => Some(if b then 1 else 0)
    case Int(i) => Some(i)
    case Str(s) => DecimalValue(s)
    case List(_) => None
  }

  /** A string holding an integer in decimal, signed with `-`, `+` or not at all, is read back as that integer. */
  lemma ToNumberOfDecimalString(i: int)
    ensures ToNumber(Str(IntString(i))) == Some(i)
    ensures i >= 0 ==> ToNumber(Str("+" + IntString(i))) == Some(i)
  {
    if i < 0 {
      DigitsValueOfDigits(-i);
      assert ("-" + Digits(-i))[1..] == Digits(-i);
    } else {
      DigitsValueOfDigits(i);
      assert ("+" + Digits(i))[1..] == Digits(i);
    }
  }

  /** `$page * $match_size`. */
  function Offset(page: int, size: Value): (r: Result<int, Error>)
    ensures r.Ok? <==> ToNumber(size).Some?
    ensures r.Err? ==> r.error == UnsupportedOperand
    ensures size.Int? ==> r == Ok(page * size.i)
  {
    match ToNumber(size)
    case Some(n) => Ok(page * n)
    case None => Err(UnsupportedOperand)
  }

  /** The total number of entries over all bundles. */
  function TotalEntries(bundles: seq<Bundle>): nat {
    if bundles == [] then 0
    else TotalEntries(bundles[..|bundles| - 1]) + |bundles[|bundles| - 1].1|
  }

  /** One match per entry of a bundle, with the label decoded. */
  function DecodedEntries(entries: seq<(EntityId, string)>, decodeEntities: string -> string): (r: seq<Match>)
    ensures |r| == |entries|
    ensures forall j :: 0 <= j < |entries| ==> r[j] == Match(entries[j].0, decodeEntities(entries[j].1))
  {
    if entries == [] then []
    else
      var last := entries[|entries| - 1];
      DecodedEntries(entries[..|entries| - 1], decodeEntities) + [Match(last.0, decodeEntities(last.1))]
  }

  /** The handler's answer flattened: bundle after bundle, entry after entry, bundle names dropped. */
  function Flatten(bundles: seq<Bundle>, decodeEntities: string -> string): (r: seq<Match>)
    ensures |r| == TotalEntries(bundles)
  {
    if bundles == [] then []
    else Flatten(bundles[..|bundles| - 1], decodeEntities) + DecodedEntries(bundles[|bundles| - 1].1, decodeEntities)
  }

  /**
   * Entry `j` of bundle `g` becomes the match at position
   * (entries in the bundles before `g`) + `j`, carrying its id and its decoded label.
   */
  lemma {:induction false} FlattenAt(bundles: seq<Bundle>, decodeEntities: string -> string, g: int, j: int)
    requires 0 <= g < |bundles| && 0 <= j < |bundles[g].1|
    ensures TotalEntries(bundles[..g]) + j < |Flatten(bundles, decodeEntities)|
    ensures Flatten(bundles, decodeEntities)[TotalEntries(bundles[..g]) + j] ==
      Match(bundles[g].1[j].0, decodeEntities(bundles[g].1[j].1))
  {
    var init := bundles[..|bundles| - 1];
    var f := Flatten(bundles, decodeEntities);
    if g == |bundles| - 1 {
      assert bundles[..g] == init;
    } else {
      FlattenAt(init, decodeEntities, g, j);
      assert init[..g] == bundles[..g];
      assert init[g] == bundles[g];
    }
  }

  /** The bundle names play no part in the result. */
  lemma {:induction false} FlattenIgnoresBundleNames(a: seq<Bundle>, b: seq<Bundle>, decodeEntities: string -> string)
    requires |a| == |b|
    requires forall i :: 0 <= i < |a| ==> a[i].1 == b[i].1
    ensures Flatten(a, decodeEntities) == Flatten(b, decodeEntities)
  {
    if a != [] {
      FlattenIgnoresBundleNames(a[..|a| - 1], b[..|b| - 1], decodeEntities);
    }
  }

  /** The outcome of a handler call as `getMatches` returns it. */
  function Outcome(answer: Result<seq<Bundle>, Error>, decodeEntities: string -> string): Result<seq<Match>, Error> {
    match answer
    case Err(e) => Err(e)
    case Ok(bundles) => Ok(Flatten(bundles, decodeEntities))
  }

  /** What `getMatches` returns, as a function of its inputs and collaborators. */
  function Matches(manager: SelectionManager, targetType: string, selectionHandler: string, settings: Entries,
                   search: Option<string>, page: int, decodeEntities: string -> string): (r: Result<seq<Match>, Error>)
    ensures manager(HandlerOptions(targetType, selectionHandler, settings)).Err? ==>
      r == Err(manager(HandlerOptions(targetType, selectionHandler, settings)).error)
    ensures manager(HandlerOptions(targetType, selectionHandler, settings)).Ok? && search.None? ==> r == Ok([])
    ensures search.Some? && ToNumber(MatchSize(settings)).None? ==> r.Err?
  {
    match manager(HandlerOptions(targetType, selectionHandler, settings))
    case Err(e) => Err(e)
    case Ok(handler) =>
      if search.None? then Ok([])
      else
        match Offset(page, MatchSize(settings))
        case Err(e) => Err(e)
        case Ok(offset) =>
          Outcome(handler.getReferenceableEntities(search.value, MatchOperator(settings), MatchSize(settings), offset),
                  decodeEntities)
  }

  /**
   * With a search string, the handler is asked with the resolved operator, limit = match size
   * and offset = page * match size, and its answer is flattened and decoded.
   */
  lemma HandlerArguments(manager: SelectionManager, targetType: string, selectionHandler: string, settings: Entries,
                         search: string, page: int, decodeEntities: string -> string, handler: Handler, n: int)
    requires manager(HandlerOptions(targetType, selectionHandler, settings)) == Ok(handler)
    requires ToNumber(MatchSize(settings)) == Some(n)
    ensures Matches(manager, targetType, selectionHandler, settings, Some(search), page, decodeEntities) ==
      Outcome(handler.getReferenceableEntities(search, MatchOperator(settings), MatchSize(settings), page * n), decodeEntities)
  {
  }

  /** Without `match_operator` and `match_size`, the handler is asked for CONTAINS matches, 10 per page from page * 10. */
  lemma DefaultQuery(manager: SelectionManager, targetType: string, selectionHandler: string, settings: Entries,
                     search: string, page: int, decodeEntities: string -> string, handler: Handler)
    requires manager(HandlerOptions(targetType, selectionHandler, settings)) == Ok(handler)
    requires "match_operator" !in Keys(settings) && "match_size" !in Keys(settings)
    ensures Matches(manager, targetType, selectionHandler, settings, Some(search), page, decodeEntities) ==
      Outcome(handler.getReferenceableEntities(search, Str("CONTAINS"), Int(10), page * 10), decodeEntities)
  {
  }

  /** A handler's access denial reaches the caller as such, never as an empty page. */
  lemma AccessDeniedPropagates(manager: SelectionManager, targetType: string, selectionHandler: string, settings: Entries,
                               search: string, page: int, decodeEntities: string -> string, handler: Handler, n: int)
    requires manager(HandlerOptions(targetType, selectionHandler, settings)) == Ok(handler)
    requires ToNumber(MatchSize(settings)) == Some(n)
    requires handler.getReferenceableEntities(search, MatchOperator(settings), MatchSize(settings), page * n) == Err(AccessDenied)
    ensures Matches(manager, targetType, selectionHandler, settings, Some(search), page, decodeEntities) == Err(AccessDenied)
  {
  }

  /** The two `foreach` loops of `getMatches`: append one decoded match per entry, bundle by bundle. */
  method FlattenLabels(entityLabels: seq<Bundle>, decodeEntities: string -> string) returns (matches: seq<Match>)
    ensures matches == Flatten(entityLabels, decodeEntities)
  {
    matches := [];
    var g := 0;
    while g < |entityLabels|
      invariant 0 <= g <= |entityLabels|
      invariant matches == Flatten(entityLabels[..g], decodeEntities)
    {
      var values := entityLabels[g].1;
      var j := 0;
      while j < |values|
        invariant 0 <= j <= |values|
        invariant matches == Flatten(entityLabels[..g], decodeEntities) + DecodedEntries(values[..j], decodeEntities)
      {
        matches := matches + [Match(values[j].0, decodeEntities(values[j].1))];
        assert values[..j + 1][..j] == values[..j];
        j := j + 1;
      }
      assert values[..j] == values;
      assert entityLabels[..g + 1][..g] == entityLabels[..g];
      g := g + 1;
    }
    assert entityLabels[..g] == entityLabels;
  }

  /** `EntityAutocompleteMatcher`: holds the selection plugin manager it is constructed with. */
  class EntityAutocompleteMatcher {
    /** The entity reference selection handler plugin manager. */
    const selectionManager: SelectionManager

    constructor(selectionManager: SelectionManager)
      ensures this.selectionManager == selectionManager
    {
      this.selectionManager := selectionManager;
    }

    /**
     * `getMatches`: the source's defaults for the optional arguments are
     * `search == Some("")` and `page == 0`; `search == None` stands for a null string.
     */
    method GetMatches(targetType: string, selectionHandler: string, selectionSettings: Entries,
                      search: Option<string>, page: int, decodeEntities: string -> string)
      returns (r: Result<seq<Match>, Error>)
      ensures r == Matches(selectionManager, targetType, selectionHandler, selectionSettings, search, page, decodeEntities)
    {
      var matches: seq<Match> := [];
      var options := Union(selectionSettings, [("target_type", Str(targetType)), ("handler", Str(selectionHandler))]);
      var instance := selectionManager(options);
      if instance.Err? {
        return Err(instance.error);
      }
      var handler := instance.value;
      if search.Some? {
        var matchOperator := OrDefault(selectionSettings, "match_operator", DefaultOperator);
        var matchSize := OrDefault(selectionSettings, "match_size", DefaultSize);
        var offset := Offset(page, matchSize);
        if offset.Err? {
          return Err(offset.error);
        }
        var answer := handler.getReferenceableEntities(search.value, matchOperator, matchSize, offset.value);
        if answer.Err? {
          return Err(answer.error);
        }
        matches := FlattenLabels(answer.value, decodeEntities);
      }
      return Ok(matches);
    }
  }
}
