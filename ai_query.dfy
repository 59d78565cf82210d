/**
 * The deterministic part of the AI query service
 * (redisinsight/api/src/modules/ai/query/ai-query.service.ts): flattening a
 * stored chat into the `[role, text]` history sent to the AI backend, and the
 * whitelist that decides which commands the AI may run on the database.
 */
module AiQuery {
  import opened Js
  import opened Seqs

  datatype AiQueryMessageType = AiMessage | HumanMessage | OtherMessageType(name: string)

  datatype AiQueryIntermediateStepType = Tool | ToolCall | OtherStepType(name: string)

  datatype AiQueryIntermediateStep = AiQueryIntermediateStep(stepType: AiQueryIntermediateStepType, data: string)

  /**
   * A stored chat message: its type, its text and, for an answer, the tool
   * steps taken. A stored record may hold no steps list at all (`null` or
   * `undefined`), which is `None`.
   */
  datatype AiQueryMessage = AiQueryMessage(
    messageType: AiQueryMessageType,
    content: string,
    steps: Option<seq<AiQueryIntermediateStep>>)

  /** A call that either returns a value or throws a `TypeError` by reading a property of `null`/`undefined`. */
  datatype Outcome<+T> = Returned(value: T) | TypeError

  /** The steps list of a message, empty when it has none. */
  function StepsOf(message: AiQueryMessage): seq<AiQueryIntermediateStep> {
    message.steps.GetOr([])
  }

  datatype AiQueryMessageRole = HumanRole | AiRole | ToolRole | ToolCallRole

  type HistoryEntry = (AiQueryMessageRole, string)

  // ---------------------------------------------------------------------------
  // Intermediate steps

  /** What one step contributes: a tool reply or a tool call keeps its data, anything else nothing. */
  function StepEntry(step: AiQueryIntermediateStep): seq<HistoryEntry> {
    match step.stepType
    case Tool => [(ToolRole, step.data)]
    case ToolCall => [(ToolCallRole, step.data)]
    case OtherStepType(_) => []
  }

  /** The entries of a list of steps, one step at a time in list order. */
  function StepEntries(steps: seq<AiQueryIntermediateStep>): seq<HistoryEntry> {
    FlatMap(steps, StepEntry)
  }

  predicate IsToolStep(step: AiQueryIntermediateStep) {
    step.stepType == Tool || step.stepType == ToolCall
  }

  function ToolStepCount(steps: seq<AiQueryIntermediateStep>): nat {
    if steps == [] then 0
    else ToolStepCount(steps[..|steps| - 1]) + (if IsToolStep(steps[|steps| - 1]) then 1 else 0)
  }

  function RoleOfToolStep(step: AiQueryIntermediateStep): AiQueryMessageRole
    requires IsToolStep(step)
  {
    if step.stepType == Tool then ToolRole else ToolCallRole
  }

  /**
   * `prepareHistoryIntermediateSteps(message)` (ai-query.service.ts:41-57): one
   * pass over the steps list that appends an entry for each tool step. A
   * message without a steps list makes the pass throw.
   */
  method PrepareHistoryIntermediateSteps(message: AiQueryMessage) returns (r: Outcome<seq<HistoryEntry>>)
    ensures r.TypeError? <==> message.steps.None?
    ensures r.Returned? ==> r.value == StepEntries(message.steps.value)
  {
    if message.steps.None? {
      return TypeError;
    }
    var all := message.steps.value;
    var steps := [];
    var i := 0;
    while i < |all|
      invariant 0 <= i <= |all|
      invariant steps == StepEntries(all[..i])
    {
      var step := all[i];
      assert all[..i + 1] == all[..i] + [step];
      FlatMapSnoc(all[..i], step, StepEntry);
      match step.stepType {
        case Tool => steps := steps + [(ToolRole, step.data)];
        case ToolCall => steps := steps + [(ToolCallRole, step.data)];
        case OtherStepType(_) =>
      }
      i := i + 1;
    }
    assert all[..i] == all;
    return Returned(steps);
  }

  /**
   * One entry per tool step and none for the others, so never more entries
   * than steps; every entry has the tool or the tool-call role.
   */
  lemma {:induction false} StepEntriesCount(steps: seq<AiQueryIntermediateStep>)
    ensures |StepEntries(steps)| == ToolStepCount(steps) <= |steps|
    ensures forall k :: 0 <= k < |StepEntries(steps)| ==> StepEntries(steps)[k].0 in {ToolRole, ToolCallRole}
  {
    if steps != [] {
      StepEntriesCount(steps[..|steps| - 1]);
    }
  }

  /** When every step is a tool step, the entries are the steps, position by position, with their data. */
  lemma {:induction false} StepEntriesOfToolSteps(steps: seq<AiQueryIntermediateStep>)
    requires forall i :: 0 <= i < |steps| ==> IsToolStep(steps[i])
    ensures |StepEntries(steps)| == |steps|
    ensures forall i :: 0 <= i < |steps| ==> StepEntries(steps)[i] == (RoleOfToolStep(steps[i]), steps[i].data)
  {
    if steps != [] {
      var init := steps[..|steps| - 1];
      StepEntriesOfToolSteps(init);
      assert forall i :: 0 <= i < |init| ==> init[i] == steps[i];
    }
  }

  // ---------------------------------------------------------------------------
  // History

  /**
   * What one message contributes: an answer gives its own entry followed by
   * its steps' entries (when it has any), a question its own entry, any other
   * type nothing.
   */
  function MessageEntries(message: AiQueryMessage): seq<HistoryEntry> {
    match message.messageType
    case AiMessage =>
      [(AiRole, message.content)] + (if |StepsOf(message)| > 0 then StepEntries(StepsOf(message)) else [])
    case HumanMessage => [(HumanRole, message.content)]
    case OtherMessageType(_) => []
  }

  /** The history of a list of messages, one message at a time in list order. */
  function History(messages: seq<AiQueryMessage>): seq<HistoryEntry> {
    FlatMap(messages, MessageEntries)
  }

  /** An answer stored without a steps list: reading `steps.length` on it throws. */
  predicate LacksSteps(message: AiQueryMessage) {
    message.messageType == AiMessage && message.steps.None?
  }

  /**
   * `prepareHistory(messages)` (ai-query.service.ts:59-78): one pass over the
   * messages that appends each one's entries. It throws as soon as it meets an
   * answer without a steps list, and the entries gathered so far are lost.
   */
  method PrepareHistory(messages: seq<AiQueryMessage>) returns (r: Outcome<seq<HistoryEntry>>)
    ensures r.TypeError? <==> exists i :: 0 <= i < |messages| && LacksSteps(messages[i])
    ensures r.Returned? ==> r.value == History(messages)
  {
    var history := [];
    var i := 0;
    while i < |messages|
      invariant 0 <= i <= |messages|
      invariant forall j :: 0 <= j < i ==> !LacksSteps(messages[j])
      invariant history == History(messages[..i])
    {
      var message := messages[i];
      assert messages[..i + 1] == messages[..i] + [message];
      FlatMapSnoc(messages[..i], message, MessageEntries);
      match message.messageType {
        case AiMessage =>
          history := history + [(AiRole, message.content)];
          if message.steps.None? {
            return TypeError;
          }
          if |message.steps.value| > 0 {
            var steps := PrepareHistoryIntermediateSteps(message);
            history := history + steps.value;
          }
        case HumanMessage =>
          history := history + [(HumanRole, message.content)];
        case OtherMessageType(_) =>
      }
      i := i + 1;
    }
    assert messages[..i] == messages;
    return Returned(history);
  }

  /** The guard on `steps.length` is immaterial: an answer always gives its entry and then its steps'. */
  lemma AnswerEntries(message: AiQueryMessage)
    requires message.messageType == AiMessage
    ensures MessageEntries(message) == [(AiRole, message.content)] + StepEntries(StepsOf(message))
  {
  }

  /** A message placed anywhere in the list contributes exactly its entries, in place: message order is kept. */
  lemma HistoryAround(before: seq<AiQueryMessage>, message: AiQueryMessage, after: seq<AiQueryMessage>)
    ensures History(before + [message] + after) == History(before) + MessageEntries(message) + History(after)
  {
    FlatMapAround(before, message, after, MessageEntries);
  }

  predicate IsChatMessage(message: AiQueryMessage) {
    message.messageType == AiMessage || message.messageType == HumanMessage
  }

  function ChatMessagesOnly(messages: seq<AiQueryMessage>): seq<AiQueryMessage> {
    if messages == [] then []
    else
      var last := messages[|messages| - 1];
      ChatMessagesOnly(messages[..|messages| - 1]) + (if IsChatMessage(last) then [last] else [])
  }

  /** Messages of any other type are dropped: the history is that of the questions and answers alone. */
  lemma {:induction false} HistoryIgnoresOtherTypes(messages: seq<AiQueryMessage>)
    ensures History(messages) == History(ChatMessagesOnly(messages))
  {
    if messages != [] {
      var init := messages[..|messages| - 1];
      var last := messages[|messages| - 1];
      HistoryIgnoresOtherTypes(init);
      FlatMapAppend(ChatMessagesOnly(init), if IsChatMessage(last) then [last] else [], MessageEntries);
      if IsChatMessage(last) {
        assert [last][..0] == [];
      }
    }
  }

  function HumanCount(messages: seq<AiQueryMessage>): nat {
    if messages == [] then 0
    else HumanCount(messages[..|messages| - 1]) + (if messages[|messages| - 1].messageType == HumanMessage then 1 else 0)
  }

  function AiCount(messages: seq<AiQueryMessage>): nat {
    if messages == [] then 0
    else AiCount(messages[..|messages| - 1]) + (if messages[|messages| - 1].messageType == AiMessage then 1 else 0)
  }

  /** The tool steps of the answers; steps stored on other messages are never read. */
  function AnswerToolStepCount(messages: seq<AiQueryMessage>): nat {
    if messages == [] then 0
    else
      var last := messages[|messages| - 1];
      AnswerToolStepCount(messages[..|messages| - 1]) + (if last.messageType == AiMessage then ToolStepCount(StepsOf(last)) else 0)
  }

  /** The history has one entry per question, one per answer and one per tool step of an answer. */
  lemma {:induction false} HistoryLength(messages: seq<AiQueryMessage>)
    ensures |History(messages)| == HumanCount(messages) + AiCount(messages) + AnswerToolStepCount(messages)
  {
    if messages != [] {
      var last := messages[|messages| - 1];
      HistoryLength(messages[..|messages| - 1]);
      StepEntriesCount(StepsOf(last));
    }
  }

  // ---------------------------------------------------------------------------
  // The RUN_QUERY whitelist

  const SearchCommand: string := "ft.search"
  const AggregateCommand: string := "ft.aggregate"
  const CommandsWhitelist: set<string> := {SearchCommand, AggregateCommand}
  const NotAllowedReply: string := "-ERR: This command is not allowed"

  /** The first argument of the query, or "" when the list or its first element is missing or empty (ai-query.service.ts:159). */
  function FirstArgument(data: Option<seq<Option<string>>>): string {
    if data.Some? && |data.value| > 0 && data.value[0].Some? then data.value[0].value else ""
  }

  /** The whitelist test, with `COMMANDS_WHITELIST` read for its own two keys. */
  predicate IsCommandAllowed(data: Option<seq<Option<string>>>) {
    ToLower(FirstArgument(data)) in CommandsWhitelist
  }

  /**
   * A query is allowed exactly when its first argument is `ft.search` or
   * `ft.aggregate` in any mix of letter case; a missing list, a missing first
   * element and an empty one are all refused.
   */
  lemma CommandAllowedIff(data: Option<seq<Option<string>>>)
    ensures IsCommandAllowed(data) <==>
      data.Some? && |data.value| > 0 && data.value[0].Some?
      && (IsCaseVariant(data.value[0].value, SearchCommand) || IsCaseVariant(data.value[0].value, AggregateCommand))
  {
    var first := FirstArgument(data);
    ToLowerMatchesExactlyCaseVariants(first, SearchCommand);
    ToLowerMatchesExactlyCaseVariants(first, AggregateCommand);
    assert ToLower("") == "";
  }

  datatype RunQueryOutcome = Rejected(reply: string) | Sent(command: seq<Option<string>>)

  /** The RUN_QUERY handler up to the database call: refuse with the fixed reply, or send `data` as it is. */
  function RunQuery(data: Option<seq<Option<string>>>): (r: RunQueryOutcome)
    ensures r.Rejected? <==> !IsCommandAllowed(data)
    ensures r.Rejected? ==> r.reply == NotAllowedReply
    ensures r.Sent? ==> data == Some(r.command)
  {
    if !IsCommandAllowed(data) then Rejected(NotAllowedReply) else Sent(data.value)
  }

  /**
   * The names a plain JavaScript object inherits from `Object.prototype`. All of
   * them are truthy, so `COMMANDS_WHITELIST[name]` finds them too.
   */
  const ObjectPrototypeMembers: set<string> := {
    "constructor", "__proto__", "hasOwnProperty", "isPrototypeOf", "propertyIsEnumerable",
    "toLocaleString", "toString", "valueOf",
    "__defineGetter__", "__defineSetter__", "__lookupGetter__", "__lookupSetter__"
  }

  /** The test as written (ai-query.service.ts:159): the plain-object lookup also finds inherited names, all truthy. */
  predicate IsCommandAllowedAsWritten(data: Option<seq<Option<string>>>) {
    var key := ToLower(FirstArgument(data));
    key in CommandsWhitelist || key in ObjectPrototypeMembers
  }

  /** `constructor` and `__proto__` are not whitelisted commands, yet the lookup as written lets them through. */
  lemma PrototypeNamePassesWhitelist()
    ensures IsCommandAllowedAsWritten(Some([Some("CONSTRUCTOR")]))
    ensures !IsCommandAllowed(Some([Some("CONSTRUCTOR")]))
    ensures IsCommandAllowedAsWritten(Some([Some("__PROTO__")]))
    ensures !IsCommandAllowed(Some([Some("__PROTO__")]))
  {
    assert ToLower(FirstArgument(Some([Some("CONSTRUCTOR")]))) == "constructor";
    assert ToLower(FirstArgument(Some([Some("__PROTO__")]))) == "__proto__";
  }

  /** The inherited names a lower-cased key can hit: the others all contain an upper-case letter. */
  const LowerCaseInheritedNames: set<string> := {"constructor", "__proto__"}

  /** Of the inherited names, exactly `constructor` and `__proto__` are free of upper-case letters. */
  lemma LowerCaseInheritedNamesExact(name: string)
    requires name in ObjectPrototypeMembers
    ensures IsLowerCase(name) <==> name in LowerCaseInheritedNames
  {
    if name == "hasOwnProperty" { assert LowerChar(name[3]) != name[3]; }
    else if name == "isPrototypeOf" { assert LowerChar(name[2]) != name[2]; }
    else if name == "propertyIsEnumerable" { assert LowerChar(name[8]) != name[8]; }
    else if name == "toLocaleString" { assert LowerChar(name[2]) != name[2]; }
    else if name == "toString" { assert LowerChar(name[2]) != name[2]; }
    else if name == "valueOf" { assert LowerChar(name[5]) != name[5]; }
    else if name == "__defineGetter__" { assert LowerChar(name[8]) != name[8]; }
    else if name == "__defineSetter__" { assert LowerChar(name[8]) != name[8]; }
    else if name == "__lookupGetter__" { assert LowerChar(name[8]) != name[8]; }
    else if name == "__lookupSetter__" { assert LowerChar(name[8]) != name[8]; }
  }

  /**
   * The test as written accepts exactly what the corrected test accepts, plus
   * the queries whose first argument lower-cases to `constructor` or `__proto__`.
   */
  lemma AsWrittenDiffersOnlyOnInheritedNames(data: Option<seq<Option<string>>>)
    ensures IsCommandAllowedAsWritten(data) <==> IsCommandAllowed(data) || ToLower(FirstArgument(data)) in LowerCaseInheritedNames
  {
    var key := ToLower(FirstArgument(data));
    ToLowerIsLowerCase(FirstArgument(data));
    if key in ObjectPrototypeMembers {
      LowerCaseInheritedNamesExact(key);
    }
    assert "constructor" in ObjectPrototypeMembers && "__proto__" in ObjectPrototypeMembers;
  }
}
