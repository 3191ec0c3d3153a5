/**
 * The dashboard's rule-based assistant
 * (frontend/src/components/ui/AIAssistant.tsx): `generateResponse`, which
 * routes a query by keyword, and `handleSend`, which guards against blank
 * input and appends the user's message before the reply. The one-second
 * reply delay is modelled as a second step (`ReplyArrives`); the current
 * time and `Date.now()` are parameters.
 */
module AIAssistant {
  import opened Wrappers
  import opened JsStrings
  import opened Models
  import opened Counting

  // ---------------------------------------------------------------------
  // Keyword routing
  // ---------------------------------------------------------------------

  datatype Intent = AboutTasks | AboutLeave | Greeting | AboutTime | Help

  const TaskWords: seq<string> := ["task", "work", "assignment"]
  const LeaveWords: seq<string> := ["leave", "vacation", "off"]
  const GreetingWords: seq<string> := ["hello", "hi"]
  const TimeWords: seq<string> := ["time", "date"]

  /** Whether the lower-cased query contains one of the keywords as a substring. */
  predicate Mentions(query: string, words: seq<string>) {
    exists i :: 0 <= i < |words| && Includes(ToLower(query), words[i])
  }

  /** The branch `generateResponse` takes: the first keyword group, in source order, the query mentions. */
  function Classify(query: string): (r: Intent)
    ensures r == AboutTasks <==> Mentions(query, TaskWords)
    ensures r == AboutLeave <==> !Mentions(query, TaskWords) && Mentions(query, LeaveWords)
    ensures r == Greeting <==>
      !Mentions(query, TaskWords) && !Mentions(query, LeaveWords) && Mentions(query, GreetingWords)
    ensures r == AboutTime <==>
      && !Mentions(query, TaskWords) && !Mentions(query, LeaveWords) && !Mentions(query, GreetingWords)
      && Mentions(query, TimeWords)
  {
    var q := ToLower(query);
    assert Mentions(query, TaskWords) <==> Includes(q, "task") || Includes(q, "work") || Includes(q, "assignment") by {
      assert TaskWords[0] == "task" && TaskWords[1] == "work" && TaskWords[2] == "assignment";
    }
    assert Mentions(query, LeaveWords) <==> Includes(q, "leave") || Includes(q, "vacation") || Includes(q, "off") by {
      assert LeaveWords[0] == "leave" && LeaveWords[1] == "vacation" && LeaveWords[2] == "off";
    }
    assert Mentions(query, GreetingWords) <==> Includes(q, "hello") || Includes(q, "hi") by {
      assert GreetingWords[0] == "hello" && GreetingWords[1] == "hi";
    }
    assert Mentions(query, TimeWords) <==> Includes(q, "time") || Includes(q, "date") by {
      assert TimeWords[0] == "time" && TimeWords[1] == "date";
    }
    if Includes(q, "task") || Includes(q, "work") || Includes(q, "assignment") then AboutTasks
    else if Includes(q, "leave") || Includes(q, "vacation") || Includes(q, "off") then AboutLeave
    else if Includes(q, "hello") || Includes(q, "hi") then Greeting
    else if Includes(q, "time") || Includes(q, "date") then AboutTime
    else Help
  }

  // ---------------------------------------------------------------------
  // The replies
  // ---------------------------------------------------------------------

  /** `tasks.filter(t => t.status !== 'Completed')`. */
  function OpenTasks(tasks: seq<Task>): (r: seq<Task>)
    ensures |r| <= |tasks|
    ensures forall t :: t in r <==> t in tasks && t.status != "Completed"
  {
    if tasks == [] then []
    else (if tasks[0].status != "Completed" then [tasks[0]] else []) + OpenTasks(tasks[1..])
  }

  /** `leaves.filter(l => l.status === 'Pending')`. */
  function PendingLeaves(leaves: seq<Leave>): (r: seq<Leave>)
    ensures |r| <= |leaves|
    ensures forall l :: l in r <==> l in leaves && l.status == "Pending"
  {
    if leaves == [] then []
    else (if leaves[0].status == "Pending" then [leaves[0]] else []) + PendingLeaves(leaves[1..])
  }

  /** Each open task is kept as often as it occurs, and no Completed task is kept. */
  lemma {:induction false} OpenTasksMultiplicity(tasks: seq<Task>, t: Task)
    ensures multiset(OpenTasks(tasks))[t] == if t.status != "Completed" then multiset(tasks)[t] else 0
    decreases |tasks|
  {
    if tasks != [] {
      assert tasks == [tasks[0]] + tasks[1..];
      OpenTasksMultiplicity(tasks[1..], t);
    }
  }

  /** The open tasks keep list order: filtering a concatenation concatenates the filtered parts. */
  lemma {:induction false} OpenTasksAppend(a: seq<Task>, b: seq<Task>)
    ensures OpenTasks(a + b) == OpenTasks(a) + OpenTasks(b)
    decreases |a|
  {
    if a == [] {
      assert a + b == b;
    } else {
      assert (a + b)[0] == a[0] && (a + b)[1..] == a[1..] + b;
      OpenTasksAppend(a[1..], b);
    }
  }

  /** The positions of the tasks that are not Completed. */
  function OpenIndices(tasks: seq<Task>): set<int> {
    set i | 0 <= i < |tasks| && tasks[i].status != "Completed"
  }

  lemma OpenIndicesSnoc(a: seq<Task>, t: Task)
    ensures OpenIndices(a + [t]) == OpenIndices(a) + (if t.status != "Completed" then {|a|} else {})
  {
    forall i | 0 <= i < |a| ensures (a + [t])[i] == a[i] { }
  }

  /** The number of open tasks is the number of positions holding a task that is not Completed. */
  lemma {:induction false} OpenTasksCount(tasks: seq<Task>)
    ensures |OpenTasks(tasks)| == |OpenIndices(tasks)|
    decreases |tasks|
  {
    if tasks != [] {
      var a, t := tasks[..|tasks| - 1], tasks[|tasks| - 1];
      assert tasks == a + [t];
      OpenTasksCount(a);
      OpenTasksAppend(a, [t]);
      assert [t][1..] == [];
      OpenIndicesSnoc(a, t);
      CardAddLast(OpenIndices(a), if t.status != "Completed" then {|a|} else {}, |a|);
    }
  }

  /** Each Pending leave is kept as often as it occurs, and no other leave is kept. */
  lemma {:induction false} PendingLeavesMultiplicity(leaves: seq<Leave>, l: Leave)
    ensures multiset(PendingLeaves(leaves))[l] == if l.status == "Pending" then multiset(leaves)[l] else 0
    decreases |leaves|
  {
    if leaves != [] {
      assert leaves == [leaves[0]] + leaves[1..];
      PendingLeavesMultiplicity(leaves[1..], l);
    }
  }

  /** The pending leaves keep list order: filtering a concatenation concatenates the filtered parts. */
  lemma {:induction false} PendingLeavesAppend(a: seq<Leave>, b: seq<Leave>)
    ensures PendingLeaves(a + b) == PendingLeaves(a) + PendingLeaves(b)
    decreases |a|
  {
    if a == [] {
      assert a + b == b;
    } else {
      assert (a + b)[0] == a[0] && (a + b)[1..] == a[1..] + b;
      PendingLeavesAppend(a[1..], b);
    }
  }

  /** The positions of the Pending leaves. */
  function PendingIndices(leaves: seq<Leave>): set<int> {
    set i | 0 <= i < |leaves| && leaves[i].status == "Pending"
  }

  lemma PendingIndicesSnoc(a: seq<Leave>, l: Leave)
    ensures PendingIndices(a + [l]) == PendingIndices(a) + (if l.status == "Pending" then {|a|} else {})
  {
    forall i | 0 <= i < |a| ensures (a + [l])[i] == a[i] { }
  }

  /** The number of pending leaves is the number of positions holding a Pending leave. */
  lemma {:induction false} PendingLeavesCount(leaves: seq<Leave>)
    ensures |PendingLeaves(leaves)| == |PendingIndices(leaves)|
    decreases |leaves|
  {
    if leaves != [] {
      var a, l := leaves[..|leaves| - 1], leaves[|leaves| - 1];
      assert leaves == a + [l];
      PendingLeavesCount(a);
      PendingLeavesAppend(a, [l]);
      assert [l][1..] == [];
      PendingIndicesSnoc(a, l);
      CardAddLast(PendingIndices(a), if l.status == "Pending" then {|a|} else {}, |a|);
    }
  }

  function Titles(tasks: seq<Task>): (r: seq<string>)
    ensures |r| == |tasks| && forall i :: 0 <= i < |tasks| ==> r[i] == tasks[i].title
  {
    if tasks == [] then [] else [tasks[0].title] + Titles(tasks[1..])
  }

  const NoOpenTasksReply: string := "You have no pending tasks right now. Great job!"
  const NoPendingLeaveReply: string := "You don't have any active leave requests at the moment."
  const HelpReply: string := "I can help you check your tasks, leave status, or schedule. Just ask!"

  function TasksReply(tasks: seq<Task>): string {
    var open := OpenTasks(tasks);
    if |open| > 0 then
      "You have " + NatToString(|open|) + " pending task(s): " + Join(Titles(open), ", ")
        + ". Would you like more details on any of them?"
    else NoOpenTasksReply
  }

  function LeaveReply(leaves: seq<Leave>): string {
    var pending := PendingLeaves(leaves);
    if |pending| > 0 then "You have " + NatToString(|pending|) + " leave request(s) pending approval."
    else NoPendingLeaveReply
  }

  /**
   * `generateResponse`. `userName` is the signed-in user's name (absent when
   * there is no user data), `now` the rendering of the current time.
   */
  function Respond(query: string, userName: Option<string>, tasks: seq<Task>, leaves: seq<Leave>, now: string): (r: string)
    ensures Mentions(query, TaskWords) ==> r == TasksReply(tasks)
    ensures !Mentions(query, TaskWords) && Mentions(query, LeaveWords) ==> r == LeaveReply(leaves)
    ensures !Mentions(query, TaskWords) && !Mentions(query, LeaveWords) && Mentions(query, GreetingWords) ==>
      r == "Hello Dr. " + (if userName.Some? && userName.value != "" then userName.value else "Smith")
        + "! Ready for the day?"
    ensures && !Mentions(query, TaskWords) && !Mentions(query, LeaveWords) && !Mentions(query, GreetingWords)
            && Mentions(query, TimeWords) ==>
      r == "It is currently " + now + "."
    ensures && !Mentions(query, TaskWords) && !Mentions(query, LeaveWords) && !Mentions(query, GreetingWords)
            && !Mentions(query, TimeWords) ==>
      r == HelpReply
  {
    match Classify(query)
    case AboutTasks => TasksReply(tasks)
    case AboutLeave => LeaveReply(leaves)
    case Greeting => "Hello Dr. " + Or(userName, "Smith") + "! Ready for the day?"
    case AboutTime => "It is currently " + now + "."
    case Help => HelpReply
  }

  // ---------------------------------------------------------------------
  // Properties of the routing and the replies
  // ---------------------------------------------------------------------

  /** Matching ignores case: a query and its lower-cased form take the same branch. */
  lemma {:induction false} ClassifyIgnoresCase(query: string)
    ensures Classify(ToLower(query)) == Classify(query)
  {
    assert ToLower(ToLower(query)) == ToLower(query);
  }

  /** Task keywords win over leave keywords: "leave work early" is about tasks. */
  lemma TaskWordsTakePrecedence(query: string)
    requires Mentions(query, TaskWords)
    ensures Respond(query, None, [], [], "") == NoOpenTasksReply
    ensures forall tasks, leaves, name, now :: Respond(query, name, tasks, leaves, now) == TasksReply(tasks)
  {
  }

  /** Keywords match inside words: "which" contains "hi", so it is answered as a greeting. */
  lemma {:induction false} HiMatchesInsideWords()
    ensures Classify("which") == Greeting
  {
    var q := ToLower("which");
    assert q == "which";
    assert OccursAt(q, "hi", 1);
    IncludesIff(q, "hi");
    IncludesIff(q, "hello");
    forall w | w in TaskWords + LeaveWords + TimeWords
      ensures !Includes(q, w)
    {
      IncludesIff(q, w);
    }
  }

  /**
   * When some task is not Completed, the task reply states in decimal the
   * number of positions holding such a task, followed by the titles of the
   * open tasks joined by ", ".
   */
  lemma {:induction false} TasksReplyContents(tasks: seq<Task>)
    requires exists i :: 0 <= i < |tasks| && tasks[i].status != "Completed"
    ensures TasksReply(tasks) ==
      "You have " + NatToString(|OpenIndices(tasks)|) + " pending task(s): "
        + Join(Titles(OpenTasks(tasks)), ", ") + ". Would you like more details on any of them?"
    ensures DigitsValue(NatToString(|OpenIndices(tasks)|)) == |OpenIndices(tasks)|
  {
    OpenTasksCount(tasks);
    var i :| 0 <= i < |tasks| && tasks[i].status != "Completed";
    assert i in OpenIndices(tasks);
    NatToStringValue(|OpenIndices(tasks)|);
  }

  /** When some leave is Pending, the leave reply states in decimal the number of Pending leaves. */
  lemma {:induction false} LeaveReplyContents(leaves: seq<Leave>)
    requires exists i :: 0 <= i < |leaves| && leaves[i].status == "Pending"
    ensures LeaveReply(leaves) ==
      "You have " + NatToString(|PendingIndices(leaves)|) + " leave request(s) pending approval."
    ensures DigitsValue(NatToString(|PendingIndices(leaves)|)) == |PendingIndices(leaves)|
  {
    PendingLeavesCount(leaves);
    var i :| 0 <= i < |leaves| && leaves[i].status == "Pending";
    assert i in PendingIndices(leaves);
    NatToStringValue(|PendingIndices(leaves)|);
  }

  /** With every task Completed (or none at all), the fixed reply is given. */
  lemma {:induction false} AllDoneReply(tasks: seq<Task>)
    requires forall i :: 0 <= i < |tasks| ==> tasks[i].status == "Completed"
    ensures TasksReply(tasks) == NoOpenTasksReply
    decreases |tasks|
  {
    if tasks != [] {
      AllDoneReply(tasks[1..]);
    }
  }

  /** The leave reply counts only Pending requests: Approved and Rejected leaves are not mentioned. */
  lemma {:induction false} DecidedLeavesIgnored(leaves: seq<Leave>, l: Leave)
    requires l.status != "Pending"
    ensures LeaveReply(leaves + [l]) == LeaveReply(leaves)
    decreases |leaves|
  {
    if leaves == [] {
      assert [l][1..] == [];
    } else {
      assert (leaves + [l])[1..] == leaves[1..] + [l];
      DecidedLeavesIgnored(leaves[1..], l);
      PendingAppend(leaves, l);
    }
  }

  lemma {:induction false} PendingAppend(leaves: seq<Leave>, l: Leave)
    requires l.status != "Pending"
    ensures PendingLeaves(leaves + [l]) == PendingLeaves(leaves)
    decreases |leaves|
  {
    if leaves == [] {
      assert [l][1..] == [];
    } else {
      assert (leaves + [l])[0] == leaves[0] && (leaves + [l])[1..] == leaves[1..] + [l];
      PendingAppend(leaves[1..], l);
    }
  }

  // ---------------------------------------------------------------------
  // handleSend
  // ---------------------------------------------------------------------

  datatype Sender = FromUser | FromAi

  datatype Message = Message(id: string, text: string, sender: Sender)

  /** The chat panel's state: the message list and the input box. */
  class Chat {
    var messages: seq<Message>
    var input: string

    /** The panel opens with one greeting from the assistant. */
    constructor (userName: Option<string>)
      ensures messages == [Message("1", "Hello Dr. " + Or(userName, "Faculty")
                                   + ". I am your AI Assistant. How can I help you today?", FromAi)]
      ensures input == ""
    {
      messages := [Message("1", "Hello Dr. " + Or(userName, "Faculty")
                           + ". I am your AI Assistant. How can I help you today?", FromAi)];
      input := "";
    }

    /**
     * `handleSend` at time `stamp`: blank input (empty or whitespace only)
     * changes nothing and schedules nothing. Otherwise the user's message is
     * appended, the input cleared, and the query is scheduled for a reply.
     */
    method HandleSend(stamp: nat) returns (scheduled: Option<string>)
      modifies this
      ensures AllWhitespace(old(input)) ==>
        scheduled == None && messages == old(messages) && input == old(input)
      ensures !AllWhitespace(old(input)) ==>
        && scheduled == Some(old(input))
        && messages == old(messages) + [Message(NatToString(stamp), old(input), FromUser)]
        && input == ""
    {
      TrimEmptyIff(input);
      if Trim(input) == "" {
        return None;
      }
      var userMsg := Message(NatToString(stamp), input, FromUser);
      messages := messages + [userMsg];
      input := "";
      scheduled := Some(userMsg.text);
    }

    /** The delayed half of `handleSend`: the reply to a scheduled query is appended. */
    method ReplyArrives(query: string, stamp: nat, userName: Option<string>, tasks: seq<Task>, leaves: seq<Leave>, now: string)
      modifies this
      ensures messages == old(messages) + [Message(NatToString(stamp + 1), Respond(query, userName, tasks, leaves, now), FromAi)]
      ensures input == old(input)
    {
      messages := messages + [Message(NatToString(stamp + 1), Respond(query, userName, tasks, leaves, now), FromAi)];
    }
  }

  /**
   * A send at time `stamp` followed by its reply at time `replyStamp` (the
   * clock read again when the delay has passed) appends exactly two
   * messages: the user's first, then the assistant's. While the clock has
   * not gone back, the two ids differ.
   */
  method SendAndReply(chat: Chat, stamp: nat, replyStamp: nat, userName: Option<string>,
                      tasks: seq<Task>, leaves: seq<Leave>, now: string)
    modifies chat
    ensures AllWhitespace(old(chat.input)) ==> chat.messages == old(chat.messages)
    ensures !AllWhitespace(old(chat.input)) ==>
      chat.messages == old(chat.messages) + [
        Message(NatToString(stamp), old(chat.input), FromUser),
        Message(NatToString(replyStamp + 1), Respond(old(chat.input), userName, tasks, leaves, now), FromAi)]
    ensures replyStamp >= stamp ==> NatToString(stamp) != NatToString(replyStamp + 1)
  {
    NatToStringValue(stamp);
    NatToStringValue(replyStamp + 1);
    var scheduled := chat.HandleSend(stamp);
    if scheduled.Some? {
      chat.ReplyArrives(scheduled.value, replyStamp, userName, tasks, leaves, now);
    }
  }
}
