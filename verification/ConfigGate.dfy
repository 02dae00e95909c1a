/**
 Configuration on its way from a Workspace to the Pulumi CLI.  The operator tests the raw items to see
 whether they need a CLI that takes JSON (workspace_controller.go), then marshals them (utils.go); the
 agent tests the messages it gets to choose between two CLI commands (server.go).
 */
module ConfigGate {
  import opened Prelude

  // A decoded JSON value, as far as it matters here.
  datatype Json = JsonNull | JsonString(text: string) | JsonOther(text: string)

  // protojson: the JSON text of a value, decoded if it is valid.
  type Decoder = string -> Option<Json>

  datatype ValueFrom = ValueFrom(env: string, path: string, json: Option<bool>)

  datatype ConfigItem = ConfigItem(
    key: string, path: Option<bool>, secret: Option<bool>, value: Option<string>, valueFrom: Option<ValueFrom>)

  datatype StackConfig = StackConfig(name: string, config: seq<ConfigItem>, environment: seq<string>)

  datatype Source = EnvSource(env: string) | PathSource(path: string)

  datatype MessageValue = Direct(value: Json) | From(source: Option<Source>, json: Option<bool>)

  datatype Message = Message(key: string, path: Option<bool>, secret: Option<bool>, v: Option<MessageValue>)

  datatype MarshalError = InvalidJson | PathOfStructured

  datatype Marshalled = Ok(message: Message) | Refused(error: MarshalError)

  /*** The operator's test ***/

  predicate ItemForcesCheck(item: ConfigItem) {
    || (item.value.Some? && |item.value.value| > 0 && item.value.value[0] != '"')
    || (item.valueFrom.Some? && item.valueFrom.value.json == Some(true))
  }

  // hasJsonConfigInWorkspace
  ghost predicate ForcesCheck(stacks: seq<StackConfig>) {
    exists s, item :: s in stacks && item in s.config && ItemForcesCheck(item)
  }

  method HasJsonConfigInWorkspace(stacks: seq<StackConfig>) returns (found: bool)
    ensures found <==> ForcesCheck(stacks)
  {
    for i := 0 to |stacks|
      invariant forall k, item :: 0 <= k < i && item in stacks[k].config ==> !ItemForcesCheck(item)
    {
      var config := stacks[i].config;
      for j := 0 to |config|
        invariant forall k :: 0 <= k < j ==> !ItemForcesCheck(config[k])
      {
        if ItemForcesCheck(config[j]) {
          assert stacks[i] in stacks && config[j] in stacks[i].config;
          return true;
        }
      }
    }
    return false;
  }

  /*** Marshalling ***/

  // What a message says of an item: where it gets its value from takes precedence over the value.
  function Marshal(d: Decoder, item: ConfigItem): Marshalled {
    if item.value.Some? && d(item.value.value).None? then Refused(InvalidJson)
    else if item.value.Some? && item.path == Some(true) && d(item.value.value).value.JsonOther?
    then Refused(PathOfStructured)
    else Ok(Message(item.key, item.path, item.secret,
                    match item.valueFrom
                    case Some(f) => Some(From(SourceOf(f), f.json))
                    case None => if item.value.Some? then Some(Direct(d(item.value.value).value)) else None))
  }

  function SourceOf(f: ValueFrom): Option<Source> {
    if f.env != "" then Some(EnvSource(f.env)) else if f.path != "" then Some(PathSource(f.path)) else None
  }

  // The source of a value: an environment variable goes before a path.
  predicate SourceFits(f: ValueFrom, source: Option<Source>) {
    && (f.env != "" ==> source == Some(EnvSource(f.env)))
    && (f.env == "" && f.path != "" ==> source == Some(PathSource(f.path)))
    && (f.env == "" && f.path == "" ==> source == None)
  }

  /** A message says what its item says, and a source goes before a value. */
  lemma MessageSays(d: Decoder, item: ConfigItem, m: Message)
    requires Marshal(d, item) == Ok(m)
    ensures m.key == item.key && m.path == item.path && m.secret == item.secret
    ensures item.valueFrom.Some? ==>
              m.v.Some? && m.v.value.From? && m.v.value.json == item.valueFrom.value.json
              && SourceFits(item.valueFrom.value, m.v.value.source)
    ensures item.valueFrom.None? && item.value.Some? ==>
              m.v.Some? && m.v.value.Direct? && d(item.value.value) == Some(m.v.value.value)
    ensures item.valueFrom.None? && item.value.None? ==> m.v == None
  {}

  /** An item is refused exactly if its value is no JSON, or is structured though the item is a path. */
  lemma RefusedExactly(d: Decoder, item: ConfigItem)
    ensures Marshal(d, item) == Refused(InvalidJson) <==> item.value.Some? && d(item.value.value).None?
    ensures Marshal(d, item) == Refused(PathOfStructured) <==>
              && item.path == Some(true) && item.value.Some?
              && d(item.value.value).Some? && d(item.value.value).value.JsonOther?
  {}

  method MarshalConfigItem(d: Decoder, item: ConfigItem) returns (r: Marshalled)
    ensures r == Marshal(d, item)
  {
    var v := Message(item.key, item.path, item.secret, None);
    if item.value.Some? {
      var value := d(item.value.value);
      if value.None? { return Refused(InvalidJson); }
      if item.path == Some(true) && value.value.JsonOther? { return Refused(PathOfStructured); }
      v := v.(v := Some(Direct(value.value)));
    }
    if item.valueFrom.Some? {
      var f := From(None, item.valueFrom.value.json);
      if item.valueFrom.value.env != "" {
        f := f.(source := Some(EnvSource(item.valueFrom.value.env)));
      } else if item.valueFrom.value.path != "" {
        f := f.(source := Some(PathSource(item.valueFrom.value.path)));
      }
      v := v.(v := Some(f));
    }
    r := Ok(v);
  }

  // The messages of a whole list, unless some item is refused.
  function MarshalAll(d: Decoder, items: seq<ConfigItem>): Option<seq<Message>> {
    if items == [] then Some([])
    else
      var rest := MarshalAll(d, items[..|items| - 1]);
      var last := Marshal(d, items[|items| - 1]);
      if rest.Some? && last.Ok? then Some(rest.value + [last.message]) else None
  }

  lemma {:induction false} MarshalAllEach(d: Decoder, items: seq<ConfigItem>)
    ensures MarshalAll(d, items).Some? <==> forall item :: item in items ==> Marshal(d, item).Ok?
    ensures MarshalAll(d, items).Some? ==>
              && |MarshalAll(d, items).value| == |items|
              && forall k :: 0 <= k < |items| ==> Marshal(d, items[k]) == Ok(MarshalAll(d, items).value[k])
  {
    if items != [] {
      var init, last := items[..|items| - 1], items[|items| - 1];
      MarshalAllEach(d, init);
      assert items == init + [last];
      if MarshalAll(d, items).None? && MarshalAll(d, init).Some? {
        assert last in items;
      }
    }
  }

  /*** The agent's choice ***/

  predicate HasJsonValue(m: Message) {
    match m.v
    case Some(Direct(value)) => value.JsonOther?
    case Some(From(_, json)) => json == Some(true)
    case None => false
  }

  // SetAllConfig takes the command that only newer CLIs have.
  ghost predicate TakesJsonRoute(messages: seq<Message>) {
    exists m :: m in messages && HasJsonValue(m)
  }

  method ChooseRoute(messages: seq<Message>) returns (json: bool)
    ensures json <==> TakesJsonRoute(messages)
  {
    json := false;
    for i := 0 to |messages|
      invariant forall k :: 0 <= k < i ==> !HasJsonValue(messages[k])
      invariant !json
    {
      if HasJsonValue(messages[i]) {
        json := true;
        break;
      }
    }
  }

  /*** The two tests agree ***/

  predicate IsSpace(c: char) { c == ' ' || c == '\t' || c == '\n' || c == '\r' }

  // The first character of a JSON text after white space.
  function Leading(raw: string): Option<char> {
    if raw == [] then None else if IsSpace(raw[0]) then Leading(raw[1..]) else Some(raw[0])
  }

  // All that is assumed of the decoder: no value is empty, and just the strings begin with a quote.
  ghost predicate Respects(d: Decoder) {
    forall raw :: d(raw).Some? ==> Leading(raw).Some? && (d(raw).value.JsonString? <==> Leading(raw) == Some('"'))
  }

  /** Item by item, the operator's look at the first byte misses nothing that the agent will find. */
  lemma ItemGate(d: Decoder, item: ConfigItem)
    requires Respects(d) && Marshal(d, item).Ok? && HasJsonValue(Marshal(d, item).message)
    ensures ItemForcesCheck(item)
  {}

  /**
   The version gate is sound.  If the agent takes the JSON route on the messages of some stack, then
   the operator's test had forced the check of the CLI's version.
   */
  lemma GateIsSound(d: Decoder, stacks: seq<StackConfig>, s: StackConfig)
    requires Respects(d) && s in stacks
    requires MarshalAll(d, s.config).Some? && TakesJsonRoute(MarshalAll(d, s.config).value)
    ensures ForcesCheck(stacks)
  {
    MarshalAllEach(d, s.config);
    var messages := MarshalAll(d, s.config).value;
    var k :| 0 <= k < |messages| && HasJsonValue(messages[k]);
    ItemGate(d, s.config[k]);
    assert s.config[k] in s.config;
  }

  /**
   The gate is not exact.  These are all the items for which the operator insists on a newer CLI though
   the agent would not need it: null, a string behind white space, and a value that its source overrides.
   */
  lemma GateExcess(d: Decoder, item: ConfigItem)
    requires Respects(d) && Marshal(d, item).Ok?
    ensures ItemForcesCheck(item) && !HasJsonValue(Marshal(d, item).message) <==>
              && item.value.Some? && item.value.value[..1] != "\""
              && (if item.valueFrom.None? then !d(item.value.value).value.JsonOther?
                  else item.valueFrom.value.json != Some(true))
  {}

  /*** Versions ***/

  datatype Version = Version(major: nat, minor: nat, patch: nat, prerelease: bool)

  // version.LT(3.202.0): a prerelease comes before the release it precedes.
  predicate OlderThanMinimum(v: Version) {
    || v.major < 3
    || (v.major == 3 && v.minor < 202)
    || (v.major == 3 && v.minor == 202 && v.patch == 0 && v.prerelease)
  }

  // The version that the CLI reports, read tolerantly, is good enough for JSON.
  predicate Supports(parse: string -> Option<Version>, version: string) {
    parse(version).Some? && !OlderThanMinimum(parse(version).value)
  }
}
