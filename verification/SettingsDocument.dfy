/** The settings document as owners move it: normalisation, partial updates, and the
    export that must import back unchanged across the change of the hub's default. */
module SettingsDocument {
  import opened Basics

  datatype Json =
    | Null
    | Flag(b: bool)
    | Text(s: string)
    | Number(n: real)
    | Items(items: seq<Json>)
    | Fields(fields: map<string, Json>)

  type Document = map<string, Json>

  datatype Result<+T> = Ok(value: T) | Err {
    predicate IsFailure() { Err? }
    function PropagateFailure<U>(): Result<U> requires Err? { Err }
    function Extract(): T requires Ok? { value }
  }

  const HUB := "solis_control_hub"
  const CLEAR: Json := Fields(map["clear" := Flag(true)])

  /** The runtime fields, the legacy option vocabulary and the secret fields. */
  datatype Vocabulary = Vocabulary(keys: set<string>, options: set<string>, secrets: set<string>) {
    predicate Sane() {
      && secrets <= keys && HUB in keys - secrets && "devices" in keys - secrets
      && {"db_path", "log_level", "proactive_mode"} !! keys
    }
  }

  // ---------------------------------------------------------------- normalisation

  function StripControl(device: Json): Json {
    if device.Fields? then Fields(device.fields - {"control"}) else device
  }

  function StripAll(devices: seq<Json>): (r: seq<Json>)
    ensures |r| == |devices| && forall i :: 0 <= i < |r| ==> r[i] == StripControl(devices[i])
  {
    if devices == [] then [] else [StripControl(devices[0])] + StripAll(devices[1..])
  }

  function Stripped(doc: Document): Document {
    if "devices" in doc && doc["devices"].Items?
      then doc["devices" := Items(StripAll(doc["devices"].items))] else doc
  }

  predicate Kept(k: string, v: Json, v0: Vocabulary, allowed: set<string>) {
    && k in allowed
    && (v != Null || k == "db_path")
    && !(k in v0.secrets && v == Text(""))
    && !(k == "devices" && v == Items([]))
  }

  function Normalised(doc: Document, fixedPath: Option<string>, strict: bool, voc: Vocabulary): Result<Document> {
    var allowed := if strict then voc.options + voc.keys else voc.options;
    if fixedPath.Some? && "db_path" in doc && doc["db_path"] != Text(fixedPath.value) then Err
    else if strict && doc.Keys - allowed - {"proactive_mode"} != {} then Err
    else
      var raw := Stripped(doc);
      Ok(map k | k in raw && Kept(k, raw[k], voc, allowed) :: raw[k])
  }

  // ---------------------------------------------------------------- updates

  predicate SecretUpdate(v: Json) {
    v == CLEAR || (v.Text? && v.s != "")
  }

  predicate Removes(k: string, v: Json) {
    v == Null || (k == "devices" && v == Items([]))
  }

  predicate UpdatesAreValid(changes: Document, voc: Vocabulary) {
    forall k :: k in changes && k in voc.secrets ==> SecretUpdate(changes[k])
  }

  function MergedInputs(changes: Document, inputs: Document, voc: Vocabulary): Document {
    map k | k in inputs.Keys + changes.Keys
            && (if k in changes && k !in voc.secrets then !Removes(k, changes[k]) else k in inputs)
      :: if k in changes && k !in voc.secrets then changes[k] else inputs[k]
  }

  function MergedSecrets(changes: Document, secrets: Document, voc: Vocabulary): Document {
    map k | k in secrets.Keys + changes.Keys
            && (if k in changes && k in voc.secrets && changes[k] != Text("***")
                then changes[k] != CLEAR else k in secrets)
      :: if k in changes && k in voc.secrets && changes[k] != Text("***") then changes[k] else secrets[k]
  }

  function Merged(changes: Document, inputs: Document, secrets: Document, voc: Vocabulary)
    : Result<(Document, Document)>
  {
    if UpdatesAreValid(changes, voc)
      then Ok((MergedInputs(changes, inputs, voc), MergedSecrets(changes, secrets, voc)))
    else Err
  }

  /** What one more key of an update changes. */
  lemma MergesOneInput(done: Document, inputs: Document, k: string, v: Json, voc: Vocabulary)
    requires k !in done
    ensures MergedInputs(done[k := v], inputs, voc) ==
      var m := MergedInputs(done, inputs, voc);
      if k in voc.secrets then m else if Removes(k, v) then m - {k} else m[k := v]
  {
    var after := MergedInputs(done[k := v], inputs, voc);
    var m := MergedInputs(done, inputs, voc);
    var expected := if k in voc.secrets then m else if Removes(k, v) then m - {k} else m[k := v];
    assert after.Keys == expected.Keys;
  }

  lemma MergesOneSecret(done: Document, secrets: Document, k: string, v: Json, voc: Vocabulary)
    requires k !in done
    ensures MergedSecrets(done[k := v], secrets, voc) ==
      var m := MergedSecrets(done, secrets, voc);
      if k !in voc.secrets || v == Text("***") then m else if v == CLEAR then m - {k} else m[k := v]
  {
    var after := MergedSecrets(done[k := v], secrets, voc);
    var m := MergedSecrets(done, secrets, voc);
    var expected := if k !in voc.secrets || v == Text("***") then m else if v == CLEAR then m - {k} else m[k := v];
    assert after.Keys == expected.Keys;
  }

  lemma MergesNothing(inputs: Document, secrets: Document, voc: Vocabulary)
    ensures MergedInputs(map[], inputs, voc) == inputs && MergedSecrets(map[], secrets, voc) == secrets
  {
    assert MergedInputs(map[], inputs, voc).Keys == inputs.Keys;
    assert MergedSecrets(map[], secrets, voc).Keys == secrets.Keys;
  }

  /** One pass over the update, keeping two copies; the order of its keys is immaterial. */
  method Merge(changes: Document, inputs: Document, secrets: Document, voc: Vocabulary)
    returns (r: Result<(Document, Document)>)
    ensures r == Merged(changes, inputs, secrets, voc)
  {
    var ins, secs := inputs, secrets;
    var todo := changes.Keys;
    ghost var done: Document := map[];
    MergesNothing(inputs, secrets, voc);
    while todo != {}
      invariant todo <= changes.Keys && done.Keys == changes.Keys - todo
      invariant forall k :: k in done ==> done[k] == changes[k]
      invariant UpdatesAreValid(done, voc)
      invariant ins == MergedInputs(done, inputs, voc)
      invariant secs == MergedSecrets(done, secrets, voc)
      decreases todo
    {
      var k :| k in todo;
      var v := changes[k];
      if k in voc.secrets && !SecretUpdate(v) {
        return Err;
      }
      MergesOneInput(done, inputs, k, v, voc);
      MergesOneSecret(done, secrets, k, v, voc);
      if k in voc.secrets {
        if v == CLEAR {
          secs := secs - {k};
        } else if v != Text("***") {
          secs := secs[k := v];
        }
      } else {
        ins := if Removes(k, v) then ins - {k} else ins[k := v];
      }
      todo := todo - {k};
      done := done[k := v];
    }
    assert done == changes;
    r := Ok((ins, secs));
  }

  // ---------------------------------------------------------------- import and export

  function HubInputs(inputs: Document): Document {
    if HUB in inputs && inputs[HUB] == Text("") then inputs - {HUB} else inputs
  }

  /** `solis` says whether validated inputs configure a legacy Solis inverter. */
  function LegacyHub(inputs: Document, solis: Document -> bool, voc: Vocabulary): Document {
    if HUB !in inputs && solis(inputs - voc.secrets) then inputs[HUB := Text("solis_control")] else inputs
  }

  function Exported(inputs: Document): Document {
    map[HUB := Text("")] + inputs
  }

  predicate HasControl(v: Json) {
    v.Items? && exists i :: 0 <= i < |v.items| && v.items[i].Fields? && "control" in v.items[i].fields
  }

  predicate SaveAccepts(changes: Document, voc: Vocabulary) {
    && changes.Keys <= voc.keys
    && !("devices" in changes && HasControl(changes["devices"]))
  }

  function ImportChanges(
      doc: Document, inputs: Document, path: string, solis: Document -> bool, voc: Vocabulary): Result<Document>
  {
    var raw :- Normalised(doc, Some(path), true, voc);
    var named: Document := map k | k in raw && k in voc.keys :: raw[k];
    Ok((map k | k in inputs :: Null) + HubInputs(LegacyHub(named, solis, voc)))
  }

  /** Replace the inputs through the ordinary save; validation of the values aside. */
  function Imported(
      doc: Document, inputs: Document, secrets: Document, path: string, solis: Document -> bool, voc: Vocabulary)
    : Result<(Document, Document)>
  {
    var changes :- ImportChanges(doc, inputs, path, solis, voc);
    if !SaveAccepts(changes, voc) then Err else Merged(changes, inputs, secrets, voc)
  }

  /** What a committed document looks like: every save and import leaves it so. */
  predicate Committed(inputs: Document, voc: Vocabulary) {
    && inputs.Keys <= voc.keys - voc.secrets
    && (forall k :: k in inputs ==> !Removes(k, inputs[k]))
    && !("devices" in inputs && HasControl(inputs["devices"]))
  }

  /** The hub a runtime sees: absent and empty are the same default. */
  function EffectiveHub(inputs: Document): Json {
    if HUB in inputs then inputs[HUB] else Text("")
  }

  lemma StripIsIdentity(v: Json)
    requires v.Items? && !HasControl(v)
    ensures StripAll(v.items) == v.items
  {
    forall i | 0 <= i < |v.items| ensures StripAll(v.items)[i] == v.items[i] {
      if v.items[i].Fields? {
        assert "control" !in v.items[i].fields;
        assert v.items[i].fields - {"control"} == v.items[i].fields;
      }
    }
  }

  lemma StrippedHasNoControl(devices: seq<Json>)
    ensures !HasControl(Items(StripAll(devices)))
  {
    forall i | 0 <= i < |devices| && StripAll(devices)[i].Fields?
      ensures "control" !in StripAll(devices)[i].fields
    {
      assert StripAll(devices)[i] == StripControl(devices[i]);
    }
  }

  lemma ExportNormalises(inputs: Document, path: string, voc: Vocabulary)
    requires voc.Sane() && Committed(inputs, voc)
    ensures Normalised(Exported(inputs), Some(path), true, voc) == Ok(Exported(inputs))
  {
    var doc := Exported(inputs);
    if "devices" in doc && doc["devices"].Items? {
      StripIsIdentity(doc["devices"]);
    }
    assert Stripped(doc) == doc;
    var allowed := voc.options + voc.keys;
    assert doc.Keys - allowed - {"proactive_mode"} == {};
    forall k | k in doc ensures Kept(k, doc[k], voc, allowed) {
      if k in inputs {
        assert doc[k] == inputs[k];
      }
    }
    assert (map k | k in doc && Kept(k, doc[k], voc, allowed) :: doc[k]) == doc;
  }

  /** An import's changes clear every present key before they name their own, so the
      present inputs never show through. */
  lemma ClearedThenNamed(named: Document, present: Document, secrets: Document, voc: Vocabulary)
    requires present.Keys <= voc.keys - voc.secrets
    requires forall k :: k in named && k !in voc.secrets ==> !Removes(k, named[k])
    ensures
      var changes: Document := (map k | k in present :: Null) + named;
      && MergedInputs(changes, present, voc) == named - voc.secrets
      && (forall k :: k in secrets && (k !in named || named[k] == Text("***")) ==>
            k in MergedSecrets(changes, secrets, voc) && MergedSecrets(changes, secrets, voc)[k] == secrets[k])
      && (named.Keys !! voc.secrets ==> MergedSecrets(changes, secrets, voc) == secrets)
  {
    var changes: Document := (map k | k in present :: Null) + named;
    assert MergedInputs(changes, present, voc).Keys == (named - voc.secrets).Keys;
    if named.Keys !! voc.secrets {
      assert MergedSecrets(changes, secrets, voc).Keys == secrets.Keys;
    }
  }

  lemma ExportChanges(
      inputs: Document, present: Document, path: string, solis: Document -> bool, voc: Vocabulary)
    requires voc.Sane() && Committed(inputs, voc)
    ensures ImportChanges(Exported(inputs), present, path, solis, voc)
         == Ok((map k | k in present :: Null) + HubInputs(inputs))
  {
    var doc := Exported(inputs);
    ExportNormalises(inputs, path, voc);
    var named: Document := map k | k in doc && k in voc.keys :: doc[k];
    assert named == doc;
    assert HubInputs(doc) == HubInputs(inputs);
  }

  lemma ClearedExportIsAccepted(inputs: Document, present: Document, voc: Vocabulary)
    requires voc.Sane() && Committed(inputs, voc) && Committed(present, voc)
    ensures
      var changes: Document := (map k | k in present :: Null) + HubInputs(inputs);
      SaveAccepts(changes, voc) && UpdatesAreValid(changes, voc)
  {
  }

  /** An exported document imports back, over any other committed inputs, to the same
      effective inputs; an empty hub stays empty and no secret moves. */
  lemma ImportOfExport(
      inputs: Document, present: Document, secrets: Document,
      path: string, solis: Document -> bool, voc: Vocabulary)
    requires voc.Sane() && Committed(inputs, voc) && Committed(present, voc)
    ensures
      var r := Imported(Exported(inputs), present, secrets, path, solis, voc);
      && r == Ok((HubInputs(inputs), secrets))
      && EffectiveHub(r.value.0) == EffectiveHub(inputs)
      && r.value.0 - {HUB} == inputs - {HUB}
  {
    var changes: Document := (map k | k in present :: Null) + HubInputs(inputs);
    ExportChanges(inputs, present, path, solis, voc);
    ClearedExportIsAccepted(inputs, present, voc);
    ClearedThenNamed(HubInputs(inputs), present, secrets, voc);
    AcceptedIsMerged(Exported(inputs), present, secrets, path, solis, voc, changes);
    HubDefaults(inputs, voc);
  }

  lemma HubDefaults(inputs: Document, voc: Vocabulary)
    requires Committed(inputs, voc)
    ensures HubInputs(inputs) - voc.secrets == HubInputs(inputs)
    ensures EffectiveHub(HubInputs(inputs)) == EffectiveHub(inputs) && HubInputs(inputs) - {HUB} == inputs - {HUB}
  {
  }

  lemma AcceptedIsMerged(
      doc: Document, present: Document, secrets: Document,
      path: string, solis: Document -> bool, voc: Vocabulary, changes: Document)
    requires ImportChanges(doc, present, path, solis, voc) == Ok(changes)
    requires SaveAccepts(changes, voc) && UpdatesAreValid(changes, voc)
    ensures Imported(doc, present, secrets, path, solis, voc)
      == Ok((MergedInputs(changes, present, voc), MergedSecrets(changes, secrets, voc)))
  {
  }

  /** What an accepted import writes: what the document names, and the hub it implies. */
  lemma ImportReplaces(
      doc: Document, present: Document, secrets: Document,
      path: string, solis: Document -> bool, voc: Vocabulary)
    requires voc.Sane() && Committed(present, voc)
    requires Imported(doc, present, secrets, path, solis, voc).Ok?
    ensures
      var (inputs, kept) := Imported(doc, present, secrets, path, solis, voc).value;
      var raw := Normalised(doc, Some(path), true, voc).value;
      var named: Document := map k | k in raw && k in voc.keys :: raw[k];
      && inputs == HubInputs(LegacyHub(named, solis, voc)) - voc.secrets
      && (forall k :: k in secrets && (k !in named || named[k] == Text("***")) ==> k in kept && kept[k] == secrets[k])
      && Committed(inputs, voc)
  {
    var raw := Normalised(doc, Some(path), true, voc).value;
    var named: Document := map k | k in raw && k in voc.keys :: raw[k];
    ClearedThenNamed(HubInputs(LegacyHub(named, solis, voc)), present, secrets, voc);
    if "devices" in doc && doc["devices"].Items? {
      StrippedHasNoControl(doc["devices"].items);
    }
  }

  /** The document alone decides the hub of an accepted import: the name it gives, an
      empty name meaning the default, or the former default exactly when it omits the
      hub and configures a legacy Solis. */
  lemma DocumentDecidesTheHub(
      doc: Document, present: Document, secrets: Document,
      path: string, solis: Document -> bool, voc: Vocabulary)
    requires voc.Sane() && Committed(present, voc)
    requires Imported(doc, present, secrets, path, solis, voc).Ok?
    ensures
      var inputs := Imported(doc, present, secrets, path, solis, voc).value.0;
      var raw := Normalised(doc, Some(path), true, voc).value;
      var plain: Document := map k | k in raw && k in voc.keys - voc.secrets :: raw[k];
      EffectiveHub(inputs) ==
        if HUB in doc && doc[HUB] != Null then doc[HUB]
        else if solis(plain) then Text("solis_control") else Text("")
  {
    ImportReplaces(doc, present, secrets, path, solis, voc);
    HubOfNamed(doc, Normalised(doc, Some(path), true, voc).value, path, solis, voc);
  }

  lemma HubOfNamed(doc: Document, raw: Document, path: string, solis: Document -> bool, voc: Vocabulary)
    requires voc.Sane() && Normalised(doc, Some(path), true, voc) == Ok(raw)
    ensures
      var named: Document := map k | k in raw && k in voc.keys :: raw[k];
      var plain: Document := map k | k in raw && k in voc.keys - voc.secrets :: raw[k];
      EffectiveHub(HubInputs(LegacyHub(named, solis, voc)) - voc.secrets) ==
        if HUB in doc && doc[HUB] != Null then doc[HUB]
        else if solis(plain) then Text("solis_control") else Text("")
  {
    var named: Document := map k | k in raw && k in voc.keys :: raw[k];
    var plain: Document := map k | k in raw && k in voc.keys - voc.secrets :: raw[k];
    assert named - voc.secrets == plain;
    assert HUB in named <==> HUB in doc && doc[HUB] != Null;
  }

  // ---------------------------------------------------------------- what is taken, key by key

  /** A document is turned down exactly for another database path or, strictly, for a key
      outside every vocabulary. */
  lemma NormalisedExactlyWhen(doc: Document, fixedPath: Option<string>, strict: bool, voc: Vocabulary)
    ensures Normalised(doc, fixedPath, strict, voc).Err? <==>
      || (fixedPath.Some? && "db_path" in doc && doc["db_path"] != Text(fixedPath.value))
      || (strict && exists k :: k in doc && k !in voc.options && k !in voc.keys && k != "proactive_mode")
  {
    var strange := doc.Keys - (voc.options + voc.keys) - {"proactive_mode"};
    if strange != {} {
      var k :| k in strange;
      assert k in doc && k !in voc.options && k !in voc.keys;
    }
    if k :| k in doc && k !in voc.options && k !in voc.keys && k != "proactive_mode" {
      assert k in strange;
    }
  }

  /** A key survives normalisation exactly when it is in the vocabulary and says something:
      a null, an empty secret and an empty device list say nothing. */
  lemma KeptExactlyWhen(doc: Document, fixedPath: Option<string>, strict: bool, voc: Vocabulary, k: string)
    requires Normalised(doc, fixedPath, strict, voc).Ok?
    ensures
      var r := Normalised(doc, fixedPath, strict, voc).value;
      && (k in r <==>
            && k in doc && (k in voc.options || (strict && k in voc.keys))
            && (doc[k] == Null ==> k == "db_path") && !(k in voc.secrets && doc[k] == Text(""))
            && !(k == "devices" && doc[k] == Items([])))
      && (k in r && (k != "devices" || !doc[k].Items?) ==> r[k] == doc[k])
  {
    if k in doc && k == "devices" && doc[k].Items? {
      assert |StripAll(doc[k].items)| == |doc[k].items|;
    }
  }

  /** Device by device, the control settings are left out and nothing else is. */
  lemma DevicesLoseTheirControl(doc: Document, fixedPath: Option<string>, strict: bool, voc: Vocabulary, i: nat)
    requires Normalised(doc, fixedPath, strict, voc).Ok? && "devices" in Normalised(doc, fixedPath, strict, voc).value
    requires doc["devices"].Items? && i < |doc["devices"].items|
    ensures
      var before, after := doc["devices"].items, Normalised(doc, fixedPath, strict, voc).value["devices"];
      && after.Items? && |after.items| == |before|
      && after.items[i] ==
           if before[i].Fields? then Fields(map f | f in before[i].fields && f != "control" :: before[i].fields[f])
           else before[i]
  {
    var before := doc["devices"].items;
    if before[i].Fields? {
      var fields := before[i].fields;
      assert fields - {"control"} == map f | f in fields && f != "control" :: fields[f];
    }
  }

  /** An update is turned down exactly for a secret that is neither a text that is not empty
      nor an order to clear it. */
  lemma MergedExactlyWhen(changes: Document, inputs: Document, secrets: Document, voc: Vocabulary)
    ensures Merged(changes, inputs, secrets, voc).Ok? <==>
      forall k :: k in changes && k in voc.secrets ==>
        changes[k] == Fields(map["clear" := Flag(true)]) || (changes[k].Text? && changes[k].s != "")
  {
  }

  /** What an update makes of one key: a secret goes to the secrets, unchanged where it is
      masked; any other key to the inputs, a null or an empty device list removing it. */
  lemma MergesEachKey(changes: Document, inputs: Document, secrets: Document, voc: Vocabulary, k: string)
    requires Merged(changes, inputs, secrets, voc).Ok?
    ensures
      var (ins, secs) := Merged(changes, inputs, secrets, voc).value;
      var named := k in changes;
      && (!named || k in voc.secrets ==> Same(ins, inputs, k))
      && (!named || k !in voc.secrets || changes[k] == Text("***") ==> Same(secs, secrets, k))
      && (named && k !in voc.secrets && (changes[k] == Null || (k == "devices" && changes[k] == Items([]))) ==>
            k !in ins)
      && (named && k !in voc.secrets && changes[k] != Null && !(k == "devices" && changes[k] == Items([])) ==>
            k in ins && ins[k] == changes[k])
      && (named && k in voc.secrets && changes[k] == Fields(map["clear" := Flag(true)]) ==> k !in secs)
      && (named && k in voc.secrets && changes[k].Text? && changes[k] != Text("***") ==>
            k in secs && secs[k] == changes[k])
  {
  }

  /** Both documents say the same of this key. */
  predicate Same(a: Document, b: Document, k: string) {
    (k in a <==> k in b) && (k in a ==> a[k] == b[k])
  }

  /** A save takes only known keys, and no control settings of a device. */
  lemma SaveAcceptsExactlyWhen(changes: Document, voc: Vocabulary)
    ensures SaveAccepts(changes, voc) <==>
      && (forall k :: k in changes ==> k in voc.keys)
      && ("devices" in changes && changes["devices"].Items? ==>
            forall device :: device in changes["devices"].items && device.Fields? ==> "control" !in device.fields)
  {
    assert changes.Keys <= voc.keys <==> forall k :: k in changes ==> k in voc.keys;
  }

  /** An import is accepted exactly when its document is, and each secret it names is a new
      text or an order to clear it. */
  lemma ImportedExactlyWhen(
      doc: Document, present: Document, secrets: Document, path: string, solis: Document -> bool, voc: Vocabulary)
    requires voc.Sane() && Committed(present, voc)
    ensures Imported(doc, present, secrets, path, solis, voc).Ok? <==>
      && Normalised(doc, Some(path), true, voc).Ok?
      && forall k :: k in Normalised(doc, Some(path), true, voc).value && k in voc.secrets ==>
           var v := Normalised(doc, Some(path), true, voc).value[k];
           v == Fields(map["clear" := Flag(true)]) || (v.Text? && v.s != "")
  {
    if Normalised(doc, Some(path), true, voc).Ok? {
      var raw := Normalised(doc, Some(path), true, voc).value;
      var named: Document := map k | k in raw && k in voc.keys :: raw[k];
      var hub := HubInputs(LegacyHub(named, solis, voc));
      var changes: Document := (map k | k in present :: Null) + hub;
      ImportIsAccepted(doc, present, path, solis, voc, changes);
      assert forall k :: k in voc.secrets ==> (k in changes <==> k in raw);
    }
  }

  lemma ImportIsAccepted(
      doc: Document, present: Document, path: string, solis: Document -> bool, voc: Vocabulary, changes: Document)
    requires voc.Sane() && Committed(present, voc)
    requires ImportChanges(doc, present, path, solis, voc) == Ok(changes)
    ensures SaveAccepts(changes, voc)
  {
    if "devices" in doc && doc["devices"].Items? {
      StrippedHasNoControl(doc["devices"].items);
    }
  }
}
