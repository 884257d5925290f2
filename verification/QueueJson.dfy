/** The ledger's JSON form: reading back what was written gives the ledger, and only what a valid
    ledger writes is read. */
module QueueJson {
  import opened Wrappers
  import opened QueueSession

  datatype Json = JNull | JBool(flag: bool) | JInt(number: int) | JReal(fraction: real) | JString(text: string)
                | JList(elements: seq<Json>) | JObject(fields: map<string, Json>)

  // -------------------------------------------------------------- enumerations

  function ItemStateName(s: ItemState): string {
    match s
    case Discovered => "discovered" case Queued => "queued" case Preparing => "preparing"
    case Analyzing => "analyzing" case Validating => "validating" case Ready => "ready"
    case Edited => "edited" case SaveQueued => "save_queued" case Saving => "saving"
    case Verified => "verified" case Discarded => "discarded" case Failed => "failed"
    case Uncertain => "uncertain"
  }

  function ItemStateNamed(name: string): Option<ItemState> {
    if name == "discovered" then Some(Discovered)
    else if name == "queued" then Some(Queued)
    else if name == "preparing" then Some(Preparing)
    else if name == "analyzing" then Some(Analyzing)
    else if name == "validating" then Some(Validating)
    else if name == "ready" then Some(Ready)
    else if name == "edited" then Some(Edited)
    else if name == "save_queued" then Some(SaveQueued)
    else if name == "saving" then Some(Saving)
    else if name == "verified" then Some(Verified)
    else if name == "discarded" then Some(Discarded)
    else if name == "failed" then Some(Failed)
    else if name == "uncertain" then Some(Uncertain)
    else None
  }

  function SessionStateName(s: SessionState): string {
    match s
    case Running => "running" case Paused => "paused" case Stopped => "stopped" case Attention => "attention"
  }

  function SessionStateNamed(name: string): Option<SessionState> {
    if name == "running" then Some(Running)
    else if name == "paused" then Some(Paused)
    else if name == "stopped" then Some(Stopped)
    else if name == "attention" then Some(Attention)
    else None
  }

  function ActionName(a: Action): string {
    match a
    case Persist => "persist" case Discard => "discard" case Rescan => "rescan"
  }

  function ActionNamed(name: string): Option<Action> {
    if name == "persist" then Some(Persist)
    else if name == "discard" then Some(Discard)
    else if name == "rescan" then Some(Rescan)
    else None
  }

  function PolicyName(p: Policy): string { if p == Single then "single" else "adaptive" }

  function PolicyNamed(name: string): Option<Policy> {
    if name == "single" then Some(Single) else if name == "adaptive" then Some(Adaptive) else None
  }

  lemma ItemStateNames(s: ItemState, name: string)
    ensures ItemStateNamed(name) == Some(s) <==> name == ItemStateName(s)
  {
  }

  // ------------------------------------------------------------------- records

  function OptionalText(s: Option<string>): Json {
    match s
    case None => JNull
    case Some(text) => JString(text)
  }

  /** A value that is null or a string; anything else is refused. */
  function TextOption(j: Json): Option<Option<string>> {
    match j
    case JNull => Some(None)
    case JString(text) => Some(Some(text))
    case _ => None
  }

  const CONFIG_KEYS := {"photo_count", "inference_concurrency", "auto_analyze", "include_caption", "apple_maps",
                        "random_selection", "model_policy", "model", "fast_model", "detailed_model"}

  function PutConfig(c: Config): Json {
    JObject(map[
      "photo_count" := JInt(c.photoCount), "inference_concurrency" := JInt(c.concurrency),
      "auto_analyze" := JBool(c.autoAnalyze), "include_caption" := JBool(c.includeCaption),
      "apple_maps" := JBool(c.appleMaps), "random_selection" := JBool(c.randomSelection),
      "model_policy" := JString(PolicyName(c.policy)), "model" := OptionalText(c.model),
      "fast_model" := JString(c.fastModel), "detailed_model" := JString(c.detailedModel)])
  }

  function GetConfig(model: string -> bool, j: Json): Option<Config> {
    if !j.JObject? || j.fields.Keys != CONFIG_KEYS then None
    else
      var m := j.fields;
      if && m["photo_count"].JInt? && m["inference_concurrency"].JInt?
         && m["auto_analyze"].JBool? && m["include_caption"].JBool?
         && m["apple_maps"].JBool? && m["random_selection"].JBool?
         && m["model_policy"].JString? && PolicyNamed(m["model_policy"].text).Some?
         && TextOption(m["model"]).Some? && m["fast_model"].JString? && m["detailed_model"].JString?
      then
        var c := Config(m["photo_count"].number, m["inference_concurrency"].number,
                        m["auto_analyze"].flag, m["include_caption"].flag,
                        m["apple_maps"].flag, m["random_selection"].flag,
                        PolicyNamed(m["model_policy"].text).value, TextOption(m["model"]).value,
                        m["fast_model"].text, m["detailed_model"].text);
        if ValidConfig(model, c) then Some(c) else None
      else None
  }

  const ITEM_KEYS := {"item_id", "revision", "state", "source_run_id", "reviewed_run_id"}

  function PutItem(item: Item): Json {
    JObject(map[
      "item_id" := JString(item.itemId), "revision" := JInt(item.revision),
      "state" := JString(ItemStateName(item.state)),
      "source_run_id" := OptionalText(item.source), "reviewed_run_id" := OptionalText(item.reviewed)])
  }

  function GetItem(j: Json): Option<Item> {
    if !j.JObject? || j.fields.Keys != ITEM_KEYS then None
    else
      var m := j.fields;
      if && m["item_id"].JString? && m["revision"].JInt? && m["state"].JString?
         && ItemStateNamed(m["state"].text).Some?
         && TextOption(m["source_run_id"]).Some? && TextOption(m["reviewed_run_id"]).Some?
      then
        var item := Item(m["item_id"].text, m["revision"].number, ItemStateNamed(m["state"].text).value,
                         TextOption(m["source_run_id"]).value, TextOption(m["reviewed_run_id"]).value);
        if ValidItem(item) then Some(item) else None
      else None
  }

  const DECISION_KEYS := {"decision_id", "item_id", "revision", "action"}

  function PutDecision(d: Decision): Json {
    JObject(map["decision_id" := JString(d.decisionId), "item_id" := JString(d.itemId),
                "revision" := JInt(d.revision), "action" := JString(ActionName(d.action))])
  }

  function GetDecision(j: Json): Option<Decision> {
    if !j.JObject? || j.fields.Keys != DECISION_KEYS then None
    else
      var m := j.fields;
      if && m["decision_id"].JString? && m["item_id"].JString? && m["revision"].JInt? && m["action"].JString?
         && ActionNamed(m["action"].text).Some?
      then
        var d := Decision(m["decision_id"].text, m["item_id"].text, m["revision"].number,
                          ActionNamed(m["action"].text).value);
        if ValidDecision(d) then Some(d) else None
      else None
  }

  // -------------------------------------------------------------------- lists

  function PutItems(items: seq<Item>): seq<Json> {
    if items == [] then [] else [PutItem(items[0])] + PutItems(items[1..])
  }

  function GetItems(js: seq<Json>): Option<seq<Item>> {
    if js == [] then Some([])
    else
      var head, tail := GetItem(js[0]), GetItems(js[1..]);
      if head.Some? && tail.Some? then Some([head.value] + tail.value) else None
  }

  function PutDecisions(decisions: seq<Decision>): seq<Json> {
    if decisions == [] then [] else [PutDecision(decisions[0])] + PutDecisions(decisions[1..])
  }

  function GetDecisions(js: seq<Json>): Option<seq<Decision>> {
    if js == [] then Some([])
    else
      var head, tail := GetDecision(js[0]), GetDecisions(js[1..]);
      if head.Some? && tail.Some? then Some([head.value] + tail.value) else None
  }

  // ------------------------------------------------------------------- ledgers

  const LEDGER_KEYS := {"schema_version", "session_id", "revision", "state", "config", "items", "decisions"}
  const SCHEMA_VERSION := 1

  /** `to_dict`, which raises on a ledger that does not validate. */
  function ToDict(model: string -> bool, s: Ledger): Option<Json> {
    if !Valid(model, s) then None else Some(PutLedger(s))
  }

  function PutLedger(s: Ledger): Json {
    JObject(map[
      "schema_version" := JInt(SCHEMA_VERSION), "session_id" := JString(s.sessionId),
      "revision" := JInt(s.revision), "state" := JString(SessionStateName(s.state)),
      "config" := PutConfig(s.config), "items" := JList(PutItems(s.items)),
      "decisions" := JList(PutDecisions(s.decisions))])
  }

  /** `from_dict`. */
  function FromDict(model: string -> bool, j: Json): Option<Ledger> {
    if !j.JObject? || j.fields.Keys != LEDGER_KEYS then None
    else
      var m := j.fields;
      if && m["items"].JList? && m["decisions"].JList?
         && m["schema_version"] == JInt(SCHEMA_VERSION) && m["session_id"].JString? && m["revision"].JInt?
         && m["state"].JString? && SessionStateNamed(m["state"].text).Some?
         && GetConfig(model, m["config"]).Some?
         && GetItems(m["items"].elements).Some? && GetDecisions(m["decisions"].elements).Some?
      then
        var s := Ledger(m["session_id"].text, GetConfig(model, m["config"]).value, m["revision"].number,
                        GetItems(m["items"].elements).value, GetDecisions(m["decisions"].elements).value,
                        SessionStateNamed(m["state"].text).value);
        if Valid(model, s) then Some(s) else None
      else None
  }

  // --------------------------------------------------------------- round trips

  lemma ConfigRead(model: string -> bool, c: Config, j: Json)
    requires GetConfig(model, j) == Some(c)
    ensures ValidConfig(model, c) && j == PutConfig(c)
  {
    hide ValidConfig;
    forall key | key in CONFIG_KEYS ensures j.fields[key] == PutConfig(c).fields[key] {
    }
    assert j.fields == PutConfig(c).fields;
  }

  lemma ConfigReadsBack(model: string -> bool, c: Config, j: Json)
    ensures GetConfig(model, j) == Some(c) <==> ValidConfig(model, c) && j == PutConfig(c)
  {
    hide ValidConfig;
    if GetConfig(model, j) == Some(c) {
      ConfigRead(model, c, j);
    }
  }

  lemma ItemReadsBack(item: Item, j: Json)
    ensures GetItem(j) == Some(item) <==> ValidItem(item) && j == PutItem(item)
  {
    hide ValidItem, ItemStateName, ItemStateNamed;
    ItemStateNames(item.state, ItemStateName(item.state));
    if GetItem(j) == Some(item) {
      ItemStateNames(item.state, j.fields["state"].text);
      assert j.fields == PutItem(item).fields;
    }
    if j == PutItem(item) {
      assert j.fields.Keys == ITEM_KEYS;
    }
  }

  lemma DecisionReadsBack(d: Decision, j: Json)
    ensures GetDecision(j) == Some(d) <==> ValidDecision(d) && j == PutDecision(d)
  {
    hide ValidDecision;
    if GetDecision(j) == Some(d) {
      assert j.fields == PutDecision(d).fields;
    }
    if j == PutDecision(d) {
      assert j.fields.Keys == DECISION_KEYS;
    }
  }

  lemma {:induction false} ItemsReadBack(items: seq<Item>, js: seq<Json>)
    ensures GetItems(js) == Some(items) <==> (forall i :: 0 <= i < |items| ==> ValidItem(items[i])) && js == PutItems(items)
    decreases |items| + |js|
  {
    hide ValidItem, GetItem, PutItem;
    if items == [] || js == [] {
    } else {
      ItemReadsBack(items[0], js[0]);
      ItemsReadBack(items[1..], js[1..]);
      assert items == [items[0]] + items[1..] && js == [js[0]] + js[1..];
      forall i | 0 < i < |items| ensures items[i] == items[1..][i - 1] {}
    }
  }

  lemma {:induction false} DecisionsReadBack(decisions: seq<Decision>, js: seq<Json>)
    ensures GetDecisions(js) == Some(decisions)
            <==> (forall i :: 0 <= i < |decisions| ==> ValidDecision(decisions[i])) && js == PutDecisions(decisions)
    decreases |decisions| + |js|
  {
    hide ValidDecision, GetDecision, PutDecision;
    if decisions == [] || js == [] {
    } else {
      DecisionReadsBack(decisions[0], js[0]);
      DecisionsReadBack(decisions[1..], js[1..]);
      assert decisions == [decisions[0]] + decisions[1..] && js == [js[0]] + js[1..];
      forall i | 0 < i < |decisions| ensures decisions[i] == decisions[1..][i - 1] {}
    }
  }

  lemma LedgerFields(s: Ledger)
    ensures PutLedger(s).fields.Keys == LEDGER_KEYS
    ensures var m := PutLedger(s).fields;
            && m["schema_version"] == JInt(SCHEMA_VERSION) && m["session_id"] == JString(s.sessionId)
            && m["revision"] == JInt(s.revision) && m["state"] == JString(SessionStateName(s.state))
            && m["config"] == PutConfig(s.config) && m["items"] == JList(PutItems(s.items))
            && m["decisions"] == JList(PutDecisions(s.decisions))
  {
    hide PutConfig, PutItems, PutDecisions, SessionStateName;
  }

  lemma SessionStateReadsBack(s: SessionState)
    ensures SessionStateNamed(SessionStateName(s)) == Some(s)
  {
  }

  lemma ValidParts(model: string -> bool, s: Ledger)
    requires Valid(model, s)
    ensures ValidConfig(model, s.config)
    ensures forall i :: 0 <= i < |s.items| ==> ValidItem(s.items[i])
    ensures forall i :: 0 <= i < |s.decisions| ==> ValidDecision(s.decisions[i])
  {
  }

  lemma LedgerRead(model: string -> bool, s: Ledger, j: Json)
    requires FromDict(model, j) == Some(s)
    ensures Valid(model, s) && j == PutLedger(s)
  {
    hide Valid, GetConfig, PutConfig, GetItems, PutItems, GetDecisions, PutDecisions, ValidConfig, ValidItem, ValidDecision;
    ConfigReadsBack(model, s.config, j.fields["config"]);
    ItemsReadBack(s.items, j.fields["items"].elements);
    DecisionsReadBack(s.decisions, j.fields["decisions"].elements);
    forall key | key in LEDGER_KEYS ensures j.fields[key] == PutLedger(s).fields[key] {
    }
    assert j.fields == PutLedger(s).fields;
  }

  lemma LedgerWrittenReads(model: string -> bool, s: Ledger)
    requires Valid(model, s)
    ensures FromDict(model, PutLedger(s)) == Some(s)
  {
    ValidParts(model, s);
    hide Valid, GetConfig, PutConfig, GetItems, PutItems, GetDecisions, PutDecisions, ValidConfig, ValidItem, ValidDecision,
      PutLedger, SessionStateName, SessionStateNamed;
    LedgerFields(s);
    SessionStateReadsBack(s.state);
    ConfigReadsBack(model, s.config, PutConfig(s.config));
    ItemsReadBack(s.items, PutItems(s.items));
    DecisionsReadBack(s.decisions, PutDecisions(s.decisions));
  }

  /** Reading and writing are inverse: a value is read as a ledger exactly when it is what that
      ledger, being valid, writes. */
  lemma LedgerReadsBack(model: string -> bool, s: Ledger, j: Json)
    ensures FromDict(model, j) == Some(s) <==> ToDict(model, s) == Some(j)
  {
    hide Valid, FromDict, PutLedger;
    if FromDict(model, j) == Some(s) {
      LedgerRead(model, s, j);
    }
    if ToDict(model, s) == Some(j) {
      LedgerWrittenReads(model, s);
    }
  }
}
