/**
 The agent's SetAllConfig (agent/pkg/server/server.go): it turns the messages into the input of one of
 two CLI commands, and the choice hangs on all of them together.
 */
module AgentConfig {
  import opened Prelude
  import opened ConfigGate

  // A configuration key: its namespace, and its name within.
  datatype Key = Key(namespace: string, name: string)

  // What the agent finds around it, and the library functions it calls.
  datatype Surroundings = Surroundings(
    project: string,
    lookup: Source -> Option<string>,    // environment variables and files
    parseKey: string -> Option<Key>,
    quote: string -> string,             // a Go string literal of the text
    compact: string -> Option<string>)   // the JSON text, normalised, if it is valid

  datatype Value = Value(secret: bool, text: string)

  datatype StructuredValue = StructuredValue(value: Value, structured: bool)

  function KeyOf(e: Surroundings, m: Message): Option<Key> {
    e.parseKey(if ':' in m.key then m.key else e.project + ":" + m.key)
  }

  function IsSecret(m: Message): bool { m.secret == Some(true) }

  predicate AlreadyEscaped(name: string) {
    |name| >= 2 && name[..2] == "[\"" && name[|name| - 2..] == "\"]"
  }

  // How a name is written so that a path is read as that very name.
  function Escape(e: Surroundings, name: string): string {
    "[" + e.quote(name) + "]"
  }

  // unmarshalConfigItem, with the key made explicit and escaped unless it is meant as a path.
  function PathEntry(e: Surroundings, m: Message): Option<(Key, Value)> {
    var text := match m.v
      case Some(Direct(JsonString(t))) => Some(t)
      case Some(Direct(JsonNull)) => Some("<nil>")
      case Some(Direct(JsonOther(_))) => None
      case Some(From(Some(source), json)) => if json == Some(true) then None else e.lookup(source)
      case Some(From(None, _)) => None
      case None => None;
    var key := KeyOf(e, m);
    if text.None? || key.None? then None
    else
      var name := key.value.name;
      var verbatim := m.path != Some(true) && !AlreadyEscaped(name);
      Some((Key(key.value.namespace, if verbatim then Escape(e, name) else name), Value(IsSecret(m), text.value)))
  }

  // One step of unmarshalConfigItemsJson.
  function JsonEntry(e: Surroundings, m: Message): Option<(Key, StructuredValue)> {
    if m.path == Some(true) && HasJsonValue(m) then None
    else
      var text := match m.v
        case Some(Direct(JsonString(t))) => Some(t)
        case Some(Direct(JsonNull)) => Some("null")
        case Some(Direct(JsonOther(t))) => e.compact(t)
        case Some(From(Some(source), json)) =>
          var data := e.lookup(source);
          if json == Some(true) && data.Some? && e.compact(data.value).None? then None else data
        case Some(From(None, _)) => None
        case None => None;
      var key := KeyOf(e, m);
      if text.None? || key.None? then None
      else Some((key.value, StructuredValue(Value(IsSecret(m), text.value), HasJsonValue(m))))
  }

  /*** What a setting has to do with its message ***/

  predicate LooksEscaped(name: string) {
    |name| >= 2 && name[0] == '[' && name[1] == '"' && name[|name| - 2] == '"' && name[|name| - 1] == ']'
  }

  // The key is that of the message, within the project unless it says otherwise; among paths, one that is not
  // meant as a path is written so that it is none.
  predicate KeyFits(e: Surroundings, m: Message, key: Key, json: bool) {
    var parsed := e.parseKey(if ':' in m.key then m.key else e.project + ":" + m.key);
    && parsed.Some? && key.namespace == parsed.value.namespace
    && var name := parsed.value.name;
      key.name == if json || m.path == Some(true) || LooksEscaped(name) then name else "[" + e.quote(name) + "]"
  }

  predicate IsJson(m: Message) {
    m.v.Some? && match m.v.value
      case Direct(value) => value.JsonOther?
      case From(_, json) => json == Some(true)
  }

  // The text is the message's own, or what its source yields, which must be JSON if it is said to be.
  predicate TextFits(e: Surroundings, m: Message, text: string, json: bool) {
    && m.v.Some?
    && (IsJson(m) ==> json)
    && match m.v.value
       case Direct(JsonString(t)) => text == t
       case Direct(JsonNull) => text == if json then "null" else "<nil>"
       case Direct(JsonOther(t)) => e.compact(t) == Some(text)
       case From(source, _) =>
         source.Some? && e.lookup(source.value) == Some(text) && (IsJson(m) ==> e.compact(text).Some?)
  }

  // A value set for this message: secret if and only if the message says so.
  predicate SettingFits(e: Surroundings, m: Message, key: Key, value: Value, json: bool) {
    && KeyFits(e, m, key, json) && TextFits(e, m, value.text, json)
    && (value.secret <==> m.secret == Some(true))
    && !(json && IsJson(m) && m.path == Some(true))
  }

  lemma EscapedLooks(name: string)
    ensures AlreadyEscaped(name) <==> LooksEscaped(name)
  {}

  lemma PathEntryFitsExactly(e: Surroundings, m: Message, key: Key, value: Value)
    ensures PathEntry(e, m) == Some((key, value)) <==> SettingFits(e, m, key, value, false)
  {
    var parsed := KeyOf(e, m);
    if parsed.Some? { EscapedLooks(parsed.value.name); }
  }

  lemma JsonEntryFitsExactly(e: Surroundings, m: Message, key: Key, value: Value, structured: bool)
    ensures JsonEntry(e, m) == Some((key, StructuredValue(value, structured))) <==>
              SettingFits(e, m, key, value, true) && (structured <==> IsJson(m))
  {}

  /** The agent makes of a message the setting that fits it, on either route, and refuses it if there is none. */
  lemma EntriesFit(e: Surroundings, m: Message, key: Key, value: Value, structured: bool)
    ensures PathEntry(e, m) == Some((key, value)) <==> SettingFits(e, m, key, value, false)
    ensures JsonEntry(e, m) == Some((key, StructuredValue(value, structured))) <==>
              SettingFits(e, m, key, value, true) && (structured <==> IsJson(m))
  {
    PathEntryFitsExactly(e, m, key, value);
    JsonEntryFitsExactly(e, m, key, value, structured);
  }

  /*** The loops ***/

  // What a list of messages comes to: an error if any of them is one, else what the last message for each key says.
  ghost predicate Collected<V>(entry: Message -> Option<(Key, V)>, items: seq<Message>, out: Option<map<Key, V>>) {
    match out
    case None => exists k :: 0 <= k < |items| && entry(items[k]).None?
    case Some(config) =>
      && (forall k :: 0 <= k < |items| ==> entry(items[k]).Some? && entry(items[k]).value.0 in config)
      && (forall key :: key in config ==> exists k :: Decides(entry, items, k, key, config[key]))
  }

  // The k-th message is the last for its key.
  ghost predicate Decides<V>(entry: Message -> Option<(Key, V)>, items: seq<Message>, k: int, key: Key, value: V) {
    && 0 <= k < |items|
    && entry(items[k]) == Some((key, value))
    && forall j :: k < j < |items| ==> entry(items[j]).None? || entry(items[j]).value.0 != key
  }

  lemma CollectedOneMore<V>(entry: Message -> Option<(Key, V)>, items: seq<Message>, config: map<Key, V>, m: Message)
    requires Collected(entry, items, Some(config)) && entry(m).Some?
    ensures Collected(entry, items + [m], Some(config[entry(m).value.0 := entry(m).value.1]))
  {
    var (key, value) := entry(m).value;
    var config' := config[key := value];
    forall k | k in config' ensures exists j :: Decides(entry, items + [m], j, k, config'[k]) {
      if k == key {
        assert Decides(entry, items + [m], |items|, k, value);
      } else {
        var j :| Decides(entry, items, j, k, config[k]);
        assert Decides(entry, items + [m], j, k, config[k]);
      }
    }
  }

  // The two entry functions, applied to the surroundings.
  function PathEntries(e: Surroundings): Message -> Option<(Key, Value)> { m => PathEntry(e, m) }

  function JsonEntries(e: Surroundings): Message -> Option<(Key, StructuredValue)> { m => JsonEntry(e, m) }

  method UnmarshalConfigItems(e: Surroundings, items: seq<Message>) returns (out: Option<map<Key, Value>>)
    ensures Collected(PathEntries(e), items, out)
  {
    var config: map<Key, Value> := map[];
    for i := 0 to |items|
      invariant Collected(PathEntries(e), items[..i], Some(config))
    {
      var entry := PathEntry(e, items[i]);
      if entry.None? {
        assert PathEntries(e)(items[i]).None?;
        return None;
      }
      CollectedOneMore(PathEntries(e), items[..i], config, items[i]);
      assert items[..i] + [items[i]] == items[..i + 1];
      config := config[entry.value.0 := entry.value.1];
    }
    assert items[..|items|] == items;
    out := Some(config);
  }

  method UnmarshalConfigItemsJson(e: Surroundings, items: seq<Message>) returns (out: Option<map<Key, StructuredValue>>)
    ensures Collected(JsonEntries(e), items, out)
  {
    var config: map<Key, StructuredValue> := map[];
    for i := 0 to |items|
      invariant Collected(JsonEntries(e), items[..i], Some(config))
    {
      var entry := JsonEntry(e, items[i]);
      if entry.None? {
        assert JsonEntries(e)(items[i]).None?;
        return None;
      }
      CollectedOneMore(JsonEntries(e), items[..i], config, items[i]);
      assert items[..i] + [items[i]] == items[..i + 1];
      config := config[entry.value.0 := entry.value.1];
    }
    assert items[..|items|] == items;
    out := Some(config);
  }

  // No later message is for the same key.
  ghost predicate LastFor(e: Surroundings, items: seq<Message>, k: int, key: Key, json: bool) {
    && 0 <= k < |items| && KeyFits(e, items[k], key, json)
    && forall j :: k < j < |items| ==> !KeyFits(e, items[j], key, json)
  }

  // Every key is set as the last message for it says, and the key of every message is set.
  ghost predicate AllFit(e: Surroundings, items: seq<Message>, values: map<Key, Value>, json: bool) {
    && (forall key :: key in values ==>
          exists k :: LastFor(e, items, k, key, json) && SettingFits(e, items[k], key, values[key], json))
    && (forall k, key :: 0 <= k < |items| && KeyFits(e, items[k], key, json) ==> key in values)
  }

  lemma OtherKey(e: Surroundings, m: Message, own: Key, key: Key, json: bool)
    requires KeyFits(e, m, own, json) && key != own
    ensures !KeyFits(e, m, key, json)
  {}

  lemma PathEntryFits(e: Surroundings, m: Message)
    requires PathEntry(e, m).Some?
    ensures SettingFits(e, m, PathEntry(e, m).value.0, PathEntry(e, m).value.1, false)
  {}

  lemma JsonEntryFits(e: Surroundings, m: Message)
    requires JsonEntry(e, m).Some?
    ensures SettingFits(e, m, JsonEntry(e, m).value.0, JsonEntry(e, m).value.1.value, true)
    ensures JsonEntry(e, m).value.1.structured <==> IsJson(m)
  {}

  lemma PathDecides(e: Surroundings, items: seq<Message>, k: int, key: Key, value: Value)
    requires Decides(PathEntries(e), items, k, key, value)
    requires forall j :: 0 <= j < |items| ==> PathEntries(e)(items[j]).Some?
    ensures LastFor(e, items, k, key, false) && SettingFits(e, items[k], key, value, false)
  {
    PathEntryFits(e, items[k]);
    forall j | k < j < |items| ensures !KeyFits(e, items[j], key, false) {
      assert PathEntries(e)(items[j]).Some?;
      PathEntryFits(e, items[j]);
      OtherKey(e, items[j], PathEntry(e, items[j]).value.0, key, false);
    }
  }

  lemma JsonDecides(e: Surroundings, items: seq<Message>, k: int, key: Key, value: StructuredValue)
    requires Decides(JsonEntries(e), items, k, key, value)
    requires forall j :: 0 <= j < |items| ==> JsonEntries(e)(items[j]).Some?
    ensures LastFor(e, items, k, key, true) && SettingFits(e, items[k], key, value.value, true)
    ensures value.structured <==> IsJson(items[k])
  {}

  lemma PathsFit(e: Surroundings, items: seq<Message>, config: map<Key, Value>)
    requires Collected(PathEntries(e), items, Some(config))
    ensures AllFit(e, items, config, false)
  {
    forall key | key in config
      ensures exists k :: LastFor(e, items, k, key, false) && SettingFits(e, items[k], key, config[key], false)
    {
      var k :| Decides(PathEntries(e), items, k, key, config[key]);
      PathDecides(e, items, k, key, config[key]);
    }
    forall k, key | 0 <= k < |items| && KeyFits(e, items[k], key, false) ensures key in config {
      assert PathEntries(e)(items[k]).Some?;
      PathEntryFits(e, items[k]);
      var own := PathEntry(e, items[k]).value.0;
      if key != own { OtherKey(e, items[k], own, key, false); }
    }
  }

  function Values(document: map<Key, StructuredValue>): map<Key, Value> {
    map key | key in document :: document[key].value
  }

  // A key holds structured data exactly if the last message for it is JSON.
  ghost predicate StructuredFit(e: Surroundings, items: seq<Message>, document: map<Key, StructuredValue>) {
    forall key :: key in document ==>
      exists k :: LastFor(e, items, k, key, true) && (document[key].structured <==> IsJson(items[k]))
  }

  lemma DocumentIsStructured(e: Surroundings, items: seq<Message>, document: map<Key, StructuredValue>)
    requires Collected(JsonEntries(e), items, Some(document))
    ensures StructuredFit(e, items, document)
  {
    forall key | key in document
      ensures exists k :: LastFor(e, items, k, key, true) && (document[key].structured <==> IsJson(items[k]))
    {
      var k :| Decides(JsonEntries(e), items, k, key, document[key]);
      JsonDecides(e, items, k, key, document[key]);
    }
  }

  lemma DocumentHolds(e: Surroundings, items: seq<Message>, document: map<Key, StructuredValue>, k: int, key: Key)
    requires Collected(JsonEntries(e), items, Some(document))
    requires 0 <= k < |items| && KeyFits(e, items[k], key, true)
    ensures key in document
  {}

  lemma DocumentSays(e: Surroundings, items: seq<Message>, document: map<Key, StructuredValue>, key: Key)
    requires Collected(JsonEntries(e), items, Some(document)) && key in document
    ensures exists k :: LastFor(e, items, k, key, true) && SettingFits(e, items[k], key, document[key].value, true)
  {
    var k :| Decides(JsonEntries(e), items, k, key, document[key]);
    JsonDecides(e, items, k, key, document[key]);
  }

  lemma DocumentFits(e: Surroundings, items: seq<Message>, document: map<Key, StructuredValue>)
    requires Collected(JsonEntries(e), items, Some(document))
    ensures AllFit(e, items, Values(document), true)
  {
    var values := Values(document);
    forall key | key in values
      ensures exists k :: LastFor(e, items, k, key, true) && SettingFits(e, items[k], key, values[key], true)
    {
      DocumentSays(e, items, document, key);
      assert values[key] == document[key].value;
    }
    forall k, key | 0 <= k < |items| && KeyFits(e, items[k], key, true) ensures key in values {
      DocumentHolds(e, items, document, k, key);
    }
  }

  lemma NoneUnfitForJson(e: Surroundings, items: seq<Message>, document: map<Key, StructuredValue>, m: Message)
    requires Collected(JsonEntries(e), items, Some(document)) && m in items
    ensures !Unfit(e, m, true)
  {}

  lemma NoneUnfitForPaths(e: Surroundings, items: seq<Message>, config: map<Key, Value>, m: Message)
    requires Collected(PathEntries(e), items, Some(config)) && m in items
    ensures !Unfit(e, m, false)
  {}

  datatype Setting = ViaPaths(config: map<Key, Value>) | ViaJson(document: map<Key, StructuredValue>) | Rejected

  // A message that cannot be set by that route; never for being JSON on the wrong one.
  predicate Unfit(e: Surroundings, m: Message, json: bool) {
    if json then JsonEntry(e, m).None? else PathEntry(e, m).None? && !HasJsonValue(m)
  }

  /** SetAllConfig: which command is run, with what. */
  method SetAllConfig(e: Surroundings, items: seq<Message>) returns (r: Setting)
    ensures r.ViaJson? ==> TakesJsonRoute(items) && Collected(JsonEntries(e), items, Some(r.document))
    ensures r.ViaPaths? ==> !TakesJsonRoute(items) && Collected(PathEntries(e), items, Some(r.config))
    ensures r.Rejected? <==> exists m :: m in items && Unfit(e, m, TakesJsonRoute(items))
    ensures r.ViaPaths? ==> AllFit(e, items, r.config, false)
    ensures r.ViaJson? ==> AllFit(e, items, Values(r.document), true) && StructuredFit(e, items, r.document)
  {
    var json := ChooseRoute(items);
    if json {
      var out := UnmarshalConfigItemsJson(e, items);
      if out.None? {
        var k :| 0 <= k < |items| && JsonEntries(e)(items[k]).None?;
        assert items[k] in items && Unfit(e, items[k], true);
        return Rejected;
      }
      r := ViaJson(out.value);
      DocumentFits(e, items, r.document);
      DocumentIsStructured(e, items, r.document);
      forall m | m in items ensures !Unfit(e, m, true) { NoneUnfitForJson(e, items, out.value, m); }
    } else {
      var out := UnmarshalConfigItems(e, items);
      if out.None? {
        var k :| 0 <= k < |items| && PathEntries(e)(items[k]).None?;
        assert items[k] in items && Unfit(e, items[k], false);
        return Rejected;
      }
      r := ViaPaths(out.value);
      PathsFit(e, items, r.config);
      forall m | m in items ensures !Unfit(e, m, false) { NoneUnfitForPaths(e, items, out.value, m); }
    }
  }

  /** Unfit is what no setting fits. */
  lemma UnfitHasNoSetting(e: Surroundings, m: Message, json: bool)
    requires !json ==> !IsJson(m)
    ensures Unfit(e, m, json) <==> !exists key, value :: SettingFits(e, m, key, value, json)
  {
    if json {
      if JsonEntry(e, m).Some? {
        var p := JsonEntry(e, m).value;
        EntriesFit(e, m, p.0, p.1.value, p.1.structured);
      } else {
        forall key, value ensures !SettingFits(e, m, key, value, true) { EntriesFit(e, m, key, value, IsJson(m)); }
      }
    } else {
      if PathEntry(e, m).Some? {
        var p := PathEntry(e, m).value;
        EntriesFit(e, m, p.0, p.1, false);
      } else {
        forall key, value ensures !SettingFits(e, m, key, value, false) { EntriesFit(e, m, key, value, false); }
      }
    }
  }

  /**
   From the Workspace to the CLI: of the items for a key, the last one decides, and the key is set as secret if
   and only if that item is marked secret, whichever route the agent takes.
   */
  lemma SecretsStaySecret(d: Decoder, e: Surroundings, items: seq<ConfigItem>, values: map<Key, Value>, json: bool,
                          key: Key)
    requires MarshalAll(d, items).Some? && AllFit(e, MarshalAll(d, items).value, values, json) && key in values
    ensures exists k :: LastFor(e, MarshalAll(d, items).value, k, key, json) && k < |items|
              && (values[key].secret <==> items[k].secret == Some(true))
  {
    var messages := MarshalAll(d, items).value;
    MarshalAllEach(d, items);
    var k :| LastFor(e, messages, k, key, json) && SettingFits(e, messages[k], key, values[key], json);
    MessageSays(d, items[k], messages[k]);
  }

  /*** Does the route matter? ***/

  // A quoted text is longer than the text.
  ghost predicate Quotes(e: Surroundings) {
    forall s :: |e.quote(s)| >= |s| + 2
  }

  /**
   A plain item should mean the same whether or not some other item forces the JSON route.  It does,
   that is, it sets the same value under the same verbatim key, exactly if it is not null and its key
   neither is a path nor looks escaped: the JSON route forgets about paths and escapes, and the other
   one turns null into a text.
   */
  lemma RouteMatters(e: Surroundings, m: Message)
    requires Quotes(e) && !HasJsonValue(m) && PathEntry(e, m).Some?
    ensures JsonEntry(e, m).Some?
    ensures var (key, value) := PathEntry(e, m).value;
            var (key', value') := JsonEntry(e, m).value;
            key == Key(key'.namespace, Escape(e, key'.name)) && value == value'.value <==>
              m.path != Some(true) && !AlreadyEscaped(key'.name) && m.v != Some(Direct(JsonNull))
  {}

  /**
   The agent refuses a path with a JSON value just where the operator could not have known: of all the items
   that the operator sends on, those alone whose source is marked as JSON.
   */
  lemma OperatorRefusesPathsFirst(e: Surroundings, d: Decoder, item: ConfigItem)
    requires Marshal(d, item).Ok?
    ensures var m := Marshal(d, item).message;
            && (m.path == Some(true) && HasJsonValue(m) <==>
                  item.path == Some(true) && item.valueFrom.Some? && item.valueFrom.value.json == Some(true))
            && (m.path == Some(true) && HasJsonValue(m) ==> JsonEntry(e, m).None?)
            && (item.path == Some(true) && item.valueFrom.None? && item.value.Some? && KeyOf(e, m).Some? ==>
                 JsonEntry(e, m).Some?)
  {}
}
