/** The deterministic part of the response engine: the word-count sentiment
    score, keyword intent detection, prefix-based action suggestion, and the
    shape of the response it assembles around the language model's reply. */
module Agent {
  import opened Values
  import opened Strings

  const PositiveWords: seq<string> := ["happy", "great", "thanks", "good", "excellent"]
  const NegativeWords: seq<string> := ["angry", "bad", "terrible", "upset", "frustrated"]

  /** `sum(word in vocabulary for word in words)` */
  function CountIn(words: seq<string>, vocabulary: seq<string>): (n: nat)
    ensures n <= |words|
    ensures n == 0 <==> forall i :: 0 <= i < |words| ==> words[i] !in vocabulary
    decreases |words|
  {
    if |words| == 0 then 0
    else (if words[0] in vocabulary then 1 else 0) + CountIn(words[1..], vocabulary)
  }

  /** Positive and negative words of the lower-cased, whitespace-split message. */
  function Positives(message: string): nat { CountIn(Words(Lower(message)), PositiveWords) }
  function Negatives(message: string): nat { CountIn(Words(Lower(message)), NegativeWords) }

  /** `analyze_sentiment`: `max(min((score + 1) / 2, 1), 0)` with
      `score = positives - negatives`. */
  function Sentiment(message: string): (r: real)
    ensures 0.0 <= r <= 1.0
    ensures r == 0.0 <==> Positives(message) < Negatives(message)
    ensures r == 0.5 <==> Positives(message) == Negatives(message)
    ensures r == 1.0 <==> Positives(message) > Negatives(message)
  {
    var score := Positives(message) - Negatives(message);
    var half := (score + 1) as real / 2.0;
    var capped := if half < 1.0 then half else 1.0;
    if capped > 0.0 then capped else 0.0
  }

  /** The intents `determine_intent` knows, each with its keywords, in order. */
  const IntentTable: seq<(string, seq<string>)> := [
    ("order_status", ["order", "tracking", "shipment", "delivery"]),
    ("technical_support", ["error", "problem", "not working", "broken"]),
    ("account_help", ["password", "login", "account", "profile"]),
    ("billing", ["payment", "charge", "bill", "invoice"])
  ]

  /** The intent reported when no listed intent matches. */
  const GeneralInquiry: string := "general_inquiry"

  /** `any(keyword in text for keyword in keywords)` */
  predicate MentionsAny(text: string, keywords: seq<string>) {
    exists j | 0 <= j < |keywords| :: Contains(text, keywords[j])
  }

  /** The intents of `table` whose keywords occur in `text`, as the loop of
      `determine_intent` collects them. */
  function Detected(text: string, table: seq<(string, seq<string>)>): (d: map<string, bool>)
    ensures forall k :: k in d ==> d[k]
    ensures forall k :: k in d <==> exists i :: 0 <= i < |table| && table[i].0 == k && MentionsAny(text, table[i].1)
    decreases |table|
  {
    if |table| == 0 then map[]
    else
      var earlier := Detected(text, table[..|table| - 1]);
      assert forall i :: 0 <= i < |table| - 1 ==> table[..|table| - 1][i] == table[i];
      var (intent, keywords) := table[|table| - 1];
      if MentionsAny(text, keywords) then earlier[intent := true] else earlier
  }

  /** No two rows of the table name the same intent, and none is the fallback. */
  predicate DistinctIntents(table: seq<(string, seq<string>)>) {
    && (forall i, j :: 0 <= i < j < |table| ==> table[i].0 != table[j].0)
    && (forall i :: 0 <= i < |table| ==> table[i].0 != GeneralInquiry)
  }

  /** What `determine_intent` returns for `message`. */
  function IntentsOf(message: string): (r: map<string, bool>)
    ensures r != map[]
    ensures forall k :: k in r ==> r[k]
    ensures forall i :: 0 <= i < |IntentTable| ==>
              (IntentTable[i].0 in r <==> MentionsAny(Lower(message), IntentTable[i].1))
    ensures forall k :: k in r ==> k == GeneralInquiry || exists i :: 0 <= i < |IntentTable| && IntentTable[i].0 == k
    ensures r == map[GeneralInquiry := true] <==>
              forall i :: 0 <= i < |IntentTable| ==> !MentionsAny(Lower(message), IntentTable[i].1)
  {
    assert DistinctIntents(IntentTable);
    var r := IntentsFrom(Lower(message), IntentTable);
    IntentsFromMeaning(Lower(message), IntentTable);
    r
  }

  /** The detected intents, or the fallback alone when there are none. */
  function IntentsFrom(text: string, table: seq<(string, seq<string>)>): map<string, bool> {
    var d := Detected(text, table);
    if d == map[] then map[GeneralInquiry := true] else d
  }

  lemma IntentsFromMeaning(text: string, table: seq<(string, seq<string>)>)
    requires DistinctIntents(table)
    ensures var r := IntentsFrom(text, table);
      && r != map[]
      && (forall k :: k in r ==> r[k])
      && (forall i :: 0 <= i < |table| ==> (table[i].0 in r <==> MentionsAny(text, table[i].1)))
      && (forall k :: k in r ==> k == GeneralInquiry || exists i :: 0 <= i < |table| && table[i].0 == k)
      && (r == map[GeneralInquiry := true] <==> forall i :: 0 <= i < |table| ==> !MentionsAny(text, table[i].1))
  {
    var d := Detected(text, table);
    var general := map[GeneralInquiry := true];
    assert GeneralInquiry in general;
    if d != map[] {
      var k :| k in d;
      assert GeneralInquiry !in d;
      assert !forall i :: 0 <= i < |table| ==> !MentionsAny(text, table[i].1);
    }
  }

  /** `determine_intent` */
  method DetermineIntent(message: string) returns (detected: map<string, bool>)
    ensures detected == IntentsOf(message)
  {
    var text := Lower(message);
    detected := CollectIntents(text, IntentTable);
    if detected == map[] {
      detected := map[GeneralInquiry := true];
    }
  }

  /** The loop of `determine_intent` over the rows of `table`. */
  method CollectIntents(text: string, table: seq<(string, seq<string>)>) returns (detected: map<string, bool>)
    ensures detected == Detected(text, table)
  {
    detected := map[];
    for i := 0 to |table|
      invariant detected == Detected(text, table[..i])
    {
      assert table[..i + 1][..i] == table[..i];
      var (intent, keywords) := table[i];
      if MentionsAny(text, keywords) {
        detected := detected[intent := true];
      }
    }
    assert table[..|table|] == table;
  }

  /** `action['id']` as a string, or the exception reading it raises. */
  function IdOf(action: Dict): (r: Result<string, Fault>)
    ensures r.Success? <==> "id" in action && action["id"].VStr?
    ensures r.Success? ==> r.value == action["id"].s
  {
    if "id" !in action then Failure(KeyError("id"))
    else match action["id"]
      case VStr(s) => Success(s)
      case v => Failure(AttributeError(TypeName(v), "startswith"))
  }

  /** `intent in intents and action['id'].startswith(prefix)` */
  function Matches(intents: map<string, bool>, intent: string, action: Dict, prefix: string): Result<bool, Fault> {
    if intent !in intents then Success(false)
    else
      var id :- IdOf(action);
      Success(StartsWith(id, prefix))
  }

  /** Some intent whose test reads the action's id was detected. */
  predicate ReadsIds(intents: map<string, bool>) {
    "order_status" in intents || "account_help" in intents || "billing" in intents
  }

  /** The action belongs to a detected intent: its id carries that intent's prefix. */
  predicate Relevant(intents: map<string, bool>, action: Dict) {
    "id" in action && action["id"].VStr? &&
    (("order_status" in intents && StartsWith(action["id"].s, "order_"))
     || ("account_help" in intents && StartsWith(action["id"].s, "account_"))
     || ("billing" in intents && StartsWith(action["id"].s, "payment_")))
  }

  /** The relevant actions, in their original order. */
  function RelevantActions(intents: map<string, bool>, actions: seq<Dict>): (r: seq<Dict>)
    ensures |r| <= |actions|
    ensures forall a :: a in r <==> a in actions && Relevant(intents, a)
    decreases |actions|
  {
    if |actions| == 0 then []
    else (if Relevant(intents, actions[0]) then [actions[0]] else []) + RelevantActions(intents, actions[1..])
  }

  /** Filtering a longer list extends the filtered shorter one. */
  lemma {:induction false} RelevantActionsSnoc(intents: map<string, bool>, actions: seq<Dict>, action: Dict)
    ensures RelevantActions(intents, actions + [action]) ==
            RelevantActions(intents, actions) + (if Relevant(intents, action) then [action] else [])
    decreases |actions|
  {
    if |actions| > 0 {
      assert (actions + [action])[1..] == actions[1..] + [action];
      RelevantActionsSnoc(intents, actions[1..], action);
    } else {
      assert [action][1..] == [];
    }
  }

  /** The exception raised reading the first action whose id is unreadable. */
  function FirstIdFault(actions: seq<Dict>): (f: Option<Fault>)
    ensures f.None? <==> forall i :: 0 <= i < |actions| ==> IdOf(actions[i]).Success?
    decreases |actions|
  {
    if |actions| == 0 then None
    else match IdOf(actions[0])
      case Failure(e) => Some(e)
      case Success(_) => FirstIdFault(actions[1..])
  }

  lemma {:induction false} FirstIdFaultSnoc(actions: seq<Dict>, action: Dict)
    requires FirstIdFault(actions).None?
    ensures FirstIdFault(actions + [action]) == if IdOf(action).Success? then None else Some(IdOf(action).error)
    decreases |actions|
  {
    if |actions| > 0 {
      assert (actions + [action])[1..] == actions[1..] + [action];
      FirstIdFaultSnoc(actions[1..], action);
    } else {
      assert [action][1..] == [];
    }
  }

  /** What `_suggest_actions` returns: the relevant actions in order, unless
      some action's id has to be read and cannot be. */
  function Suggestions(intents: map<string, bool>, actions: seq<Dict>): (r: Result<seq<Dict>, Fault>)
    ensures r.Failure? <==> ReadsIds(intents) && exists i :: 0 <= i < |actions| && IdOf(actions[i]).Failure?
    ensures r.Success? ==> r.value == RelevantActions(intents, actions)
    ensures actions == [] ==> r == Success([])
  {
    if ReadsIds(intents) && FirstIdFault(actions).Some? then Failure(FirstIdFault(actions).value)
    else Success(RelevantActions(intents, actions))
  }

  /** `_suggest_actions` (its `user_context` argument is unused). */
  method SuggestActions(intents: map<string, bool>, availableActions: seq<Dict>) returns (r: Result<seq<Dict>, Fault>)
    ensures r == Suggestions(intents, availableActions)
  {
    var suggestions: seq<Dict> := [];
    for i := 0 to |availableActions|
      invariant suggestions == RelevantActions(intents, availableActions[..i])
      invariant ReadsIds(intents) ==> FirstIdFault(availableActions[..i]).None?
    {
      var action := availableActions[i];
      assert availableActions[..i + 1] == availableActions[..i] + [action];
      RelevantActionsSnoc(intents, availableActions[..i], action);
      if ReadsIds(intents) {
        FirstIdFaultSnoc(availableActions[..i], action);
      }
      var isOrder := Matches(intents, "order_status", action, "order_");
      if isOrder.Failure? {
        FaultIsFirst(intents, availableActions, i);
        return Failure(isOrder.error);
      }
      if isOrder.value {
        suggestions := suggestions + [action];
      } else {
        var isAccount := Matches(intents, "account_help", action, "account_");
        if isAccount.Failure? {
          FaultIsFirst(intents, availableActions, i);
          return Failure(isAccount.error);
        }
        if isAccount.value {
          suggestions := suggestions + [action];
        } else {
          var isBilling := Matches(intents, "billing", action, "payment_");
          if isBilling.Failure? {
            FaultIsFirst(intents, availableActions, i);
            return Failure(isBilling.error);
          }
          if isBilling.value {
            suggestions := suggestions + [action];
          }
        }
      }
    }
    assert availableActions[..|availableActions|] == availableActions;
    r := Success(suggestions);
  }

  /** An unreadable id at `i`, after readable ones, is the first fault of the whole list. */
  lemma FirstIdFaultAt(actions: seq<Dict>, i: nat)
    requires i < |actions| && FirstIdFault(actions[..i]).None? && IdOf(actions[i]).Failure?
    ensures FirstIdFault(actions) == Some(IdOf(actions[i]).error)
    decreases i
  {
    if i > 0 {
      assert actions[1..][..i - 1] == actions[..i][1..];
      assert IdOf(actions[0]).Success?;
      FirstIdFaultAt(actions[1..], i - 1);
    }
  }

  lemma FaultIsFirst(intents: map<string, bool>, actions: seq<Dict>, i: nat)
    requires i < |actions| && ReadsIds(intents) && FirstIdFault(actions[..i]).None? && IdOf(actions[i]).Failure?
    ensures Suggestions(intents, actions) == Failure(IdOf(actions[i]).error)
  {
    FirstIdFaultAt(actions, i);
  }

  /** The language-model call: its reply text, or the reason it failed. */
  datatype LlmOutcome = Completed(text: string) | LlmFailed(reason: string)

  /** The dictionary `generate_response` returns. */
  datatype AgentResponse = AgentResponse(
    response: string,
    sentiment: real,
    intents: map<string, bool>,
    confidence: real,
    suggestedActions: seq<Dict>)

  /** The confidence `generate_response` always reports. */
  const ReportedConfidence: real := 0.85

  /** What `generate_response` returns or raises: a message that is not a
      string fails at `lower()`; the model's failure propagates. */
  function ResponseOf(message: Value, availableActions: seq<Dict>, llm: LlmOutcome): (r: Result<AgentResponse, Fault>)
    ensures r.Success? ==> message.VStr? && llm.Completed?
    ensures r.Success? ==> r.value.confidence == ReportedConfidence && r.value.response == llm.text
    ensures r.Success? ==> r.value.intents == IntentsOf(message.s) && r.value.sentiment == Sentiment(message.s)
    ensures r.Success? ==> r.value.suggestedActions == RelevantActions(IntentsOf(message.s), availableActions)
    ensures r.Success? <==>
              message.VStr? && llm.Completed? && Suggestions(IntentsOf(message.s), availableActions).Success?
    ensures !message.VStr? ==> r == Failure(AttributeError(TypeName(message), "lower"))
    ensures message.VStr? && llm.LlmFailed? ==> r == Failure(External(llm.reason))
    ensures message.VStr? && llm.Completed? && r.Failure? ==>
              r.error == Suggestions(IntentsOf(message.s), availableActions).error
    ensures availableActions == [] ==> (r.Success? <==> message.VStr? && llm.Completed?)
  {
    if !message.VStr? then Failure(AttributeError(TypeName(message), "lower"))
    else
      var intents := IntentsOf(message.s);
      match llm
      case LlmFailed(reason) => Failure(External(reason))
      case Completed(text) =>
        var suggestions :- Suggestions(intents, availableActions);
        Success(AgentResponse(text, Sentiment(message.s), intents, ReportedConfidence, suggestions))
  }

  /** `generate_response`; the prompt and the model call are the outcome `llm`. */
  method GenerateResponse(message: Value, availableActions: seq<Dict>, llm: LlmOutcome)
    returns (r: Result<AgentResponse, Fault>)
    ensures r == ResponseOf(message, availableActions, llm)
  {
    if !message.VStr? {
      return Failure(AttributeError(TypeName(message), "lower"));
    }
    var sentiment := Sentiment(message.s);
    var intents := DetermineIntent(message.s);
    if llm.LlmFailed? {
      return Failure(External(llm.reason));
    }
    var suggestions := SuggestActions(intents, availableActions);
    if suggestions.Failure? {
      return Failure(suggestions.error);
    }
    r := Success(AgentResponse(llm.text, sentiment, intents, ReportedConfidence, suggestions.value));
  }
}
