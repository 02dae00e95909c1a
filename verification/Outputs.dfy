/**
 The trip of stack outputs through two controllers: the Update reconciler stores them in a Secret
 under sanitised names with an annotation that lists the secret ones (outputsToSecret in
 update_controller.go), and the Stack reconciler shows them, masked, in the Stack's status
 (markStackSucceeded in stack_controller.go).
 */
module Outputs {
  import opened Prelude
  import opened StackModel

  datatype OutputValue = OutputValue(json: string, secret: bool)

  datatype Annotation = Absent | Unparsable | Names(names: seq<string>)

  datatype Secret = Secret(data: map<string, string>, annotation: Annotation)

  // The characters that secretKeyReplacementRegex leaves alone.
  predicate AllowedInKey(c: char) {
    c == '-' || c == '.' || c == '_' || 'a' <= c <= 'z' || 'A' <= c <= 'Z' || '0' <= c <= '9'
  }

  predicate IsLetter(c: char) {
    'a' <= c <= 'z' || 'A' <= c <= 'Z'
  }

  // What Kubernetes lets the key of a Secret be made of.
  predicate ValidInKey(c: char) {
    IsLetter(c) || '0' <= c <= '9' || c in ['-', '.', '_']
  }

  function Sanitize(name: string): (k: string)
    ensures |k| == |name|
    ensures forall i :: 0 <= i < |k| ==> k[i] == if ValidInKey(name[i]) then name[i] else '_'
  {
    if name == "" then ""
    else [if AllowedInKey(name[0]) then name[0] else '_'] + Sanitize(name[1..])
  }

  // Some output has the sanitised name k; some secret one has; some one has with the value json.
  ghost predicate NamesOutput(outputs: map<string, OutputValue>, k: string) {
    exists name :: name in outputs && Sanitize(name) == k
  }

  ghost predicate NamesSecret(outputs: map<string, OutputValue>, k: string) {
    exists name :: name in outputs && outputs[name].secret && Sanitize(name) == k
  }

  ghost predicate NamesValue(outputs: map<string, OutputValue>, k: string, json: string) {
    exists name :: name in outputs && Sanitize(name) == k && outputs[name].json == json
  }

  // The secret carries these outputs: each key is a sanitised name and holds the value of some
  // output of that name, and the annotation lists exactly the keys of secret outputs.
  ghost predicate Carries(data: map<string, string>, masked: seq<string>, outputs: map<string, OutputValue>) {
    && (forall k :: k in data <==> NamesOutput(outputs, k))
    && (forall k :: k in data ==> NamesValue(outputs, k, data[k]))
    && (forall k :: k in masked <==> NamesSecret(outputs, k))
  }

  /** outputsToSecret.  Go visits the map in any order; so does the choice of `name` here. */
  method OutputsToSecret(outputs: map<string, OutputValue>) returns (s: Secret)
    ensures s.annotation.Names? && Carries(s.data, s.annotation.names, outputs)
  {
    var data: map<string, string> := map[];
    var secrets: seq<string> := [];
    var todo := outputs.Keys;
    ghost var done: map<string, OutputValue> := map[];
    while todo != {}
      invariant todo <= outputs.Keys && done.Keys == outputs.Keys - todo
      invariant forall n :: n in done ==> done[n] == outputs[n]
      invariant Carries(data, secrets, done)
      decreases todo
    {
      var name :| name in todo;
      var v := outputs[name];
      var k := Sanitize(name);
      CarriesOneMore(data, secrets, done, name, v);
      data := data[k := v.json];
      if v.secret {
        secrets := secrets + [k];
      }
      todo := todo - {name};
      done := done[name := v];
    }
    assert done == outputs;
    s := Secret(data, Names(secrets));
  }

  lemma KeepsNames(done: map<string, OutputValue>, name: string, v: OutputValue, k: string)
    requires name !in done
    ensures NamesOutput(done[name := v], k) <==> NamesOutput(done, k) || k == Sanitize(name)
    ensures NamesSecret(done[name := v], k) <==> NamesSecret(done, k) || (v.secret && k == Sanitize(name))
    ensures forall json :: NamesValue(done, k, json) || (k == Sanitize(name) && json == v.json) ==>
            NamesValue(done[name := v], k, json)
  {
    var done' := done[name := v];
    assert name in done' && done'[name] == v;
    assert forall n :: n in done ==> n in done' && done'[n] == done[n];
    assert forall n :: n in done' && n != name ==> n in done;
    forall json | NamesValue(done, k, json) ensures NamesValue(done', k, json) {
      var n :| n in done && Sanitize(n) == k && done[n].json == json;
      assert n in done' && done'[n].json == json;
    }
  }

  lemma CarriesOneMore(data: map<string, string>, masked: seq<string>, done: map<string, OutputValue>, name: string,
                       v: OutputValue)
    requires Carries(data, masked, done) && name !in done
    ensures Carries(data[Sanitize(name) := v.json], 
                    if v.secret then masked + [Sanitize(name)] else masked, done[name := v])
  {
    forall k { KeepsNames(done, name, v, k); }
  }

  // What the API server answers when the Stack reconciler asks for the output Secret.
  datatype SecretRead = Found(secret: Secret) | Missing | ReadError

  // The outputs to show; None where the reconciler gives up.
  function ShownOutputs(r: SecretRead): Option<map<string, Shown>> {
    match r
    case ReadError => None
    case Missing => Some(map[])
    case Found(s) =>
      if s.annotation.Unparsable? then None else Some(Masking(s.data, MaskedNames(s.annotation)))
  }

  function MaskedNames(a: Annotation): seq<string> {
    if a.Names? then a.names else []
  }

  function Masking(data: map<string, string>, names: seq<string>): map<string, Shown> {
    map k | k in data :: if k in names then Masked else Plain(data[k])
  }

  /** The loop of markStackSucceeded over the keys of the Secret. */
  method CollectOutputs(r: SecretRead) returns (shown: Option<map<string, Shown>>)
    ensures shown == ShownOutputs(r)
  {
    if r.ReadError? { return None; }
    var data: map<string, string> := map[];
    var secrets: seq<string> := [];
    if r.Found? {
      data := r.secret.data;
      match r.secret.annotation {
        case Unparsable => return None;
        case Absent =>
        case Names(names) => secrets := names;
      }
    }
    var outputs: map<string, Shown> := map[];
    var todo := data.Keys;
    while todo != {}
      invariant todo <= data.Keys && outputs.Keys == data.Keys - todo
      invariant forall k :: k in outputs ==> outputs[k] == if k in secrets then Masked else Plain(data[k])
      decreases todo
    {
      var key :| key in todo;
      if key in secrets {
        outputs := outputs[key := Masked];
      } else {
        outputs := outputs[key := Plain(data[key])];
      }
      todo := todo - {key};
    }
    assert outputs == Masking(data, secrets);
    shown := Some(outputs);
  }

  /**
   Masking survives the trip, also where sanitised names collide: the Stack shows exactly the
   sanitised names, shows a key in the clear just when no secret output sanitises to it, and what
   it shows in the clear is the value of an output of that name.
   */
  lemma MaskingSurvives(outputs: map<string, OutputValue>, s: Secret)
    requires s.annotation.Names? && Carries(s.data, s.annotation.names, outputs)
    ensures ShownOutputs(Found(s)).Some?
    ensures var shown := ShownOutputs(Found(s)).value;
            && (forall k :: k in shown <==> NamesOutput(outputs, k))
            && (forall k :: k in shown ==> (shown[k] == Masked <==> NamesSecret(outputs, k)))
            && (forall k :: k in shown && shown[k].Plain? ==> NamesValue(outputs, k, shown[k].json))
  {}
}
