/** The conversation state record (`CSRState`) and its flat dictionary form:
    `to_dict` stores every field under its own key, with the phase as its
    string tag; `from_dict` reads them back, using each field's default for a
    missing key. */
module State {
  import opened Values

  /** `WorkflowState` */
  datatype Phase = Init | Verify | Process | Execute | Feedback | End

  /** `WorkflowState.value` */
  function PhaseTag(p: Phase): (tag: string)
    ensures tag == "init" <==> p == Init
    ensures tag == "verify" <==> p == Verify
    ensures tag == "process" <==> p == Process
    ensures tag == "execute" <==> p == Execute
    ensures tag == "feedback" <==> p == Feedback
    ensures tag == "end" <==> p == End
  {
    match p
    case Init => "init"
    case Verify => "verify"
    case Process => "process"
    case Execute => "execute"
    case Feedback => "feedback"
    case End => "end"
  }

  /** `WorkflowState(v)`; `None` where Python raises `ValueError`. */
  function PhaseOf(v: Value): (p: Option<Phase>)
    ensures p.Some? ==> v == VStr(PhaseTag(p.value))
    ensures forall q :: v == VStr(PhaseTag(q)) ==> p == Some(q)
  {
    match v
    case VStr(s) =>
      if s == "init" then Some(Init)
      else if s == "verify" then Some(Verify)
      else if s == "process" then Some(Process)
      else if s == "execute" then Some(Execute)
      else if s == "feedback" then Some(Feedback)
      else if s == "end" then Some(End)
      else None
    case _ => None
  }

  /** `CSRState` as a value. */
  datatype StateRecord = StateRecord(
    verified: bool,
    verificationAttempts: int,
    currentState: Phase,
    messages: seq<Value>,
    userContext: Dict,
    confidenceScore: real,
    requiresEscalation: bool,
    processed: bool,
    pendingAction: Dict,
    feedbackSubmitted: bool)

  /** `CSRState()`: every field at its declared default. */
  function Default(): (s: StateRecord)
    ensures !s.verified && s.verificationAttempts == 0 && s.currentState == Init
    ensures s.messages == [] && s.userContext == map[] && s.pendingAction == map[]
    ensures s.confidenceScore == 1.0
    ensures !s.requiresEscalation && !s.processed && !s.feedbackSubmitted
  {
    StateRecord(false, 0, Init, [], map[], 1.0, false, false, map[], false)
  }

  /** The field keys in the order `from_dict` reads them. */
  const FieldOrder: seq<string> := [
    "verified", "verification_attempts", "current_state", "messages", "user_context",
    "confidence_score", "requires_escalation", "processed", "pending_action", "feedback_submitted"
  ]

  /** The keys of the stored form, one per field. */
  const FieldNames: set<string> := set k | k in FieldOrder

  /** The field keys, one by one. */
  lemma FieldNamesListed(k: string)
    ensures k in FieldNames <==>
      k == "verified" || k == "verification_attempts" || k == "current_state" || k == "messages"
      || k == "user_context" || k == "confidence_score" || k == "requires_escalation"
      || k == "processed" || k == "pending_action" || k == "feedback_submitted"
  {
    assert k in FieldNames <==> k in FieldOrder;
  }

  /** The stored form of the field that `key` names. */
  function FieldValue(s: StateRecord, key: string): Value {
    if key == "verified" then VBool(s.verified)
    else if key == "verification_attempts" then VInt(s.verificationAttempts)
    else if key == "current_state" then VStr(PhaseTag(s.currentState))
    else if key == "messages" then VList(s.messages)
    else if key == "user_context" then VDict(s.userContext)
    else if key == "confidence_score" then VReal(s.confidenceScore)
    else if key == "requires_escalation" then VBool(s.requiresEscalation)
    else if key == "processed" then VBool(s.processed)
    else if key == "pending_action" then VDict(s.pendingAction)
    else if key == "feedback_submitted" then VBool(s.feedbackSubmitted)
    else VNone
  }

  /** `to_dict`: exactly the ten field keys, and `from_dict` reads the state back. */
  function ToDict(s: StateRecord): (d: Dict)
    ensures d.Keys == FieldNames
    ensures d["current_state"] == VStr(PhaseTag(s.currentState))
    ensures FromDict(d) == Success(s)
  {
    var d := map key | key in FieldNames :: FieldValue(s, key);
    ReadsBack(s, d);
    d
  }

  lemma ReadsBack(s: StateRecord, d: Dict)
    requires d == map key | key in FieldNames :: FieldValue(s, key)
    ensures FromDict(d) == Success(s)
  {
    WellTypedStoredForm(s, d);
    var r := FromDict(d);
    assert r.Success?;
    forall k | k in FieldNames ensures FieldValue(r.value, k) == FieldValue(s, k) {
      assert k in d;
    }
    FieldValuesDetermine(r.value, s);
  }

  /** A record is determined by its stored fields. */
  lemma FieldValuesDetermine(a: StateRecord, b: StateRecord)
    requires forall k :: k in FieldNames ==> FieldValue(a, k) == FieldValue(b, k)
    ensures a == b
  {
    FieldNamesListed("verified");
    FieldNamesListed("verification_attempts");
    FieldNamesListed("current_state");
    FieldNamesListed("messages");
    FieldNamesListed("user_context");
    FieldNamesListed("confidence_score");
    FieldNamesListed("requires_escalation");
    FieldNamesListed("processed");
    FieldNamesListed("pending_action");
    FieldNamesListed("feedback_submitted");
    assert FieldValue(a, "current_state") == FieldValue(b, "current_state");
  }

  lemma WellTypedStoredForm(s: StateRecord, d: Dict)
    requires d == map key | key in FieldNames :: FieldValue(s, key)
    ensures forall k :: k in d && k in FieldNames ==> WellTyped(k, d[k])
  {
    forall k | k in d && k in FieldNames ensures WellTyped(k, d[k]) {
      if k == "current_state" {
        assert d[k] == VStr(PhaseTag(s.currentState));
      }
    }
  }

  /** Why a dictionary does not load. */
  datatype LoadError =
    | BadPhase(tag: Value)   // `WorkflowState(tag)` raises ValueError
    | IllTyped(key: string)  // a value that the typed field cannot hold

  /** A value the field under `key` can hold; keys that are not fields are ignored. */
  predicate WellTyped(key: string, v: Value) {
    if key == "verified" || key == "requires_escalation" || key == "processed"
       || key == "feedback_submitted" then v.VBool?
    else if key == "verification_attempts" then v.VInt?
    else if key == "current_state" then PhaseOf(v).Some?
    else if key == "messages" then v.VList?
    else if key == "user_context" || key == "pending_action" then v.VDict?
    else if key == "confidence_score" then v.VReal?
    else true
  }

  /** The first key of `keys` whose value in `data` the field cannot hold. */
  function FirstIllTyped(data: Dict, keys: seq<string>): (k: Option<string>)
    ensures k.None? <==> forall i :: 0 <= i < |keys| && keys[i] in data ==> WellTyped(keys[i], data[keys[i]])
    ensures k.Some? ==> k.value in keys && k.value in data && !WellTyped(k.value, data[k.value])
    decreases |keys|
  {
    if |keys| == 0 then None
    else if keys[0] in data && !WellTyped(keys[0], data[keys[0]]) then Some(keys[0])
    else FirstIllTyped(data, keys[1..])
  }

  /** Every field key present holds a value of the field's type. */
  predicate Loadable(data: Dict) {
    forall i :: 0 <= i < |FieldOrder| && FieldOrder[i] in data ==> WellTyped(FieldOrder[i], data[FieldOrder[i]])
  }

  /** What `Loadable` says about each field that `Load` reads. */
  lemma LoadableFields(data: Dict)
    requires Loadable(data)
    ensures "verified" in data ==> data["verified"].VBool?
    ensures "verification_attempts" in data ==> data["verification_attempts"].VInt?
    ensures "messages" in data ==> data["messages"].VList?
    ensures "user_context" in data ==> data["user_context"].VDict?
    ensures "confidence_score" in data ==> data["confidence_score"].VReal?
    ensures "requires_escalation" in data ==> data["requires_escalation"].VBool?
    ensures "processed" in data ==> data["processed"].VBool?
    ensures "pending_action" in data ==> data["pending_action"].VDict?
    ensures "feedback_submitted" in data ==> data["feedback_submitted"].VBool?
  {
    assert FieldOrder[0] == "verified" && FieldOrder[1] == "verification_attempts";
    assert FieldOrder[3] == "messages" && FieldOrder[4] == "user_context";
    assert FieldOrder[5] == "confidence_score" && FieldOrder[6] == "requires_escalation";
    assert FieldOrder[7] == "processed" && FieldOrder[8] == "pending_action";
    assert FieldOrder[9] == "feedback_submitted";
  }

  /** Reading one field: the stored value where present, else the default. */
  function LoadBool(data: Dict, key: string, default: bool): bool
    requires key in data ==> data[key].VBool?
  {
    if key in data then data[key].b else default
  }

  function LoadDict(data: Dict, key: string): Dict
    requires key in data ==> data[key].VDict?
  {
    if key in data then data[key].entries else map[]
  }

  /** Reads every field once they are known to be well typed. */
  function Load(data: Dict, phase: Phase): StateRecord
    requires Loadable(data)
  {
    LoadableFields(data);
    StateRecord(
      LoadBool(data, "verified", false),
      if "verification_attempts" in data then data["verification_attempts"].i else 0,
      phase,
      if "messages" in data then data["messages"].items else [],
      LoadDict(data, "user_context"),
      if "confidence_score" in data then data["confidence_score"].x else 1.0,
      LoadBool(data, "requires_escalation", false),
      LoadBool(data, "processed", false),
      LoadDict(data, "pending_action"),
      LoadBool(data, "feedback_submitted", false))
  }

  lemma LoadCopiesFields(data: Dict, tag: Value, phase: Phase, k: string)
    requires Loadable(data)
    requires tag == Get(data, "current_state", VStr(PhaseTag(Init))) && PhaseOf(tag) == Some(phase)
    requires k in FieldNames
    ensures FieldValue(Load(data, phase), k) == Get(data, k, FieldValue(Default(), k))
  {
    LoadableFields(data);
    FieldNamesListed(k);
    if k == "current_state" {
      assert PhaseOf(tag).Some?;
    }
  }

  /** `from_dict`: an empty dictionary gives the defaults; otherwise every
      field key present is copied and every missing one takes its default,
      and a phase tag that names no phase fails the load. */
  function FromDict(data: Dict): (r: Result<StateRecord, LoadError>)
    ensures data == map[] ==> r == Success(Default())
    ensures (r.Failure? && r.error.BadPhase?) <==>
            ("current_state" in data && PhaseOf(data["current_state"]).None?)
    ensures r.Success? <==> forall k :: k in data && k in FieldNames ==> WellTyped(k, data[k])
    ensures r.Success? ==>
              forall k :: k in FieldNames ==>
                FieldValue(r.value, k) == Get(data, k, FieldValue(Default(), k))
  {
    if data == map[] then Success(Default())
    else
      var tag := Get(data, "current_state", VStr(PhaseTag(Init)));
      match PhaseOf(tag)
      case None => Failure(BadPhase(tag))
      case Some(phase) =>
        match FirstIllTyped(data, FieldOrder)
        case Some(key) => Failure(IllTyped(key))
        case None =>
          assert forall k :: k in FieldNames <==> k in FieldOrder;
          var r := Load(data, phase);
          assert forall k :: k in FieldNames ==> FieldValue(r, k) == Get(data, k, FieldValue(Default(), k)) by {
            forall k | k in FieldNames ensures FieldValue(r, k) == Get(data, k, FieldValue(Default(), k)) {
              LoadCopiesFields(data, tag, phase, k);
            }
          }
          Success(r)
  }
}
